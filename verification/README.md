# Login and world server: verified core

A Dafny model of the parts of the AION login and world servers in which state, arithmetic and
concurrency meet, with proofs of what they promise, and with the exact conditions where they do not
keep a promise. `dafny verify dfyconfig.toml` checks everything.

| file | models | main results |
|---|---|---|
| `StreamBuf.dfy` | asio's `basic_streambuf` | every run of calls is a run of a bounded byte queue; exactly when a call throws, and exactly when a throw damages what is queued |
| `Tickets.dfy`, `LoginProtocol.dfy`, `WorldProtocol.dfy`, `TicketRuns.dfy` | the tickets table, both packet processors, whole runs of both servers | nobody acts for an account without an earlier password login; the table is the replay of its history; the life of a connection |
| `TicketAnswers.dfy` | the answers of both servers in those runs | what a client is answered, from what it was told and from the last writes alone; the whole way from a password to the world server and back |
| `Framing.dfy` | `TCPConnection::OnBytesReceived` | framing as intended does not depend on chunking; the exact deliveries on which the loop as written does the same, out-of-bounds moves included; the buffer bound |
| `Packet.dfy` | `Packet` | what is written is read back; exactly when a truncated string is cut safely |
| `PacketProcessor.dfy` | the worker threads | every call's packet once and in its order, one packet at a time, one packet for each worker after `Stop`; exactly when nobody can go on |
| `ConnectionPool.dfy` | `PSQLConnectionPool` | no lost wakeup; every connection in one place, handed out in the order of return; a thread can be served exactly while fewer connections are lost than were created |
| `PooledWorkers.dfy` | the packet workers using the pools | a worker sleeps only if its pool has lost everything; `Stop` can return exactly if no worker wants a connection of such a pool |
| `SocketBuf.dfy` | the put area of `basic_socket_streambuf` | byte conservation over every run, and exactly when it fails |
| `Lifecycle.dfy` | accept, read errors, close, shutdown, send | the client list holds the open connections; exactly when a thread is left with a null client |
| `StringUtility.dfy`, `ServerList.dfy` | `Explode`, the IPv4 parser, the server list reply | splitting and joining, address and reply round trips with their exact limits |
| `Common.dfy` | machine integers, sums | helpers |

An object that the source changes in place is a class here. Its methods are proved to compute
functions on values (`View()` gives the value of an object), and the lemmas are about those functions
and about runs of them. Interleaved threads are state machines with one step for what a thread does
between two points at which another can run; beside them stand classes for what is done under the lock.
Failures of databases, sockets and random numbers are inputs, so that every lemma holds for any of them.

Where the code does something other than what it is for:

- `TCPConnection.cpp:110` calls `memmove` with destination and source exchanged. The comment above it
  and the assignment below it describe moving the rest of the buffer to the front. `Framing.Intended`
  is that; `Framing.Performed` is the code, with no value where the move leaves the buffer or a length
  field is below 2. `Framing.WrittenIff` and `Framing.WrittenRunIff` say exactly when the code does what is
  intended: the stored stream repeats its first frame and leaves the move two bytes of room.
  `Framing.WrittenDropsSecondFrame` and `Framing.OverrunExample` are streams on which it does not.
- `basic_streambuf::reserve` moves the readable bytes before it throws. `prepare` with too large a
  request, or with a vector that fails to grow, therefore damages them, unless they repeat with a period
  of the consumed part (`StreamBuf.ReserveThrowsIff`, `StreamBuf.ThrowDamagesExample`). `overflow` of a full
  buffer never does.
- `basic_socket_streambuf::overflow` keeps the whole buffer when it fails after a partial send, so a
  later flush sends a part twice (`SocketBuf.ConservedIff`, `SocketBuf.FlushIsSafeIff`, `SocketBuf.ResendExample`).
- `Packet::ReadString` checks the declared length with a 32-bit sum that can wrap
  (`Packets.TruncatedTextIff`, `Packets.WrappingTextExample`).
- A database exception loses the pool's connection: once as many are lost as there were, and not
  before, nobody is served in any continuation (`ConnectionPool.ServedIffFewerLost`). The worker
  that asks next sleeps with the packet mutex in its hands, so every `EnqueuePacket` waits for ever and
  `Stop` never returns; so it is with a packet whose `ProcessPacket` does not end
  (`PooledWorkers.StuckServerIsDead`, `PooledWorkers.StopReturnsIff`, `PooledWorkers.HangIsReachable`).
- The server list reply counts servers in 8 bits, loops over ids with an 8-bit counter and reads outside an
  empty vector for an address without four parts
  (`ServerList.ReplyRoundTripIff`, `ServerList.CharacterLoopEndsIff`, `ServerList.LongListExample`,
  `ServerList.Id255Example`).
- `CloseConnection`, `ShutdownConnection` and `SendPacket` look at the open flag and use the client
  afterwards; if the read handler resets the client in between, they use a null pointer
  (`Lifecycle.NullIffOverlapped`, `Lifecycle.RaceExample`).

## Model

| member | source | states |
|---|---|---|
| `StreamBuf.ReserveExact` | 3rdparty/asio-1.26.0/include/asio/basic_streambuf.hpp:308-346 | with a vector that can grow, `reserve(n)` throws if and only if size + n exceeds the maximum, with no `size_t` wrap in the decision; otherwise contents are kept, n bytes are free, the vector grows to size + n and no further, and nothing happens if there was room; on a throw only the memory may differ |
| `StreamBuf.ReserveThrowsIff` | 3rdparty/asio-1.26.0/include/asio/basic_streambuf.hpp:322-346 | with a vector that may fail to grow: `reserve` throws if and only if the request does not fit or growing is needed and fails, and either way the readable bytes survive if and only if they repeat with period `gptr` |
| `StreamBuf.ThrowKeepsContentsIff` | 3rdparty/asio-1.26.0/include/asio/basic_streambuf.hpp:322-344 | a throwing `reserve` keeps the readable bytes if and only if they repeat with period `gptr` |
| `StreamBuf.ThrowDamagesExample` | 3rdparty/asio-1.26.0/include/asio/basic_streambuf.hpp:322-344 | a run from a new buffer after which a throwing `prepare` changes what is readable |
| `StreamBuf.HelperNeverThrows` | 3rdparty/asio-1.26.0/include/asio/basic_streambuf.hpp:353-359 | `prepare(read_size_helper(sb, m))` never throws, for any vector capacity; the size is 0 only if m is 0 or the buffer is full, m exactly if m fits and is at most 512 or the spare capacity, and otherwise all that fits or at least both of these |
| `StreamBuf.OverflowExact` | 3rdparty/asio-1.26.0/include/asio/basic_streambuf.hpp:283-306 | with the put area full, `overflow(c)` throws if and only if the buffer is full, and then nothing changes; otherwise its request succeeds, c is the last byte queued, and the vector grows by 128 bytes or up to the limit |
| `StreamBuf.SputcRefines` | 3rdparty/asio-1.26.0/include/asio/basic_streambuf.hpp:283-306 | `sputc` is put on a bounded queue |
| `StreamBuf.PrepareRefinesIff` | 3rdparty/asio-1.26.0/include/asio/basic_streambuf.hpp:214-219 | `prepare` leaves the queue alone if and only if it fits or its early move cannot be noticed |
| `StreamBuf.WriteRefinesIff` | 3rdparty/asio-1.26.0/include/asio/basic_streambuf.hpp:214-238 | prepare, fill and commit k of the bytes appends those k, if and only if it fits or its early move cannot be noticed |
| `StreamBuf.ConsumeRefines` | 3rdparty/asio-1.26.0/include/asio/basic_streambuf.hpp:247-254 | `consume(n)` removes min(n, size) bytes from the front, also where `egptr` lags |
| `StreamBuf.PeekRefines` | 3rdparty/asio-1.26.0/include/asio/basic_streambuf.hpp:263-274 | `sgetc` through `underflow` sees the front of the queue and changes nothing queued |
| `StreamBuf.TakeRefines` | 3rdparty/asio-1.26.0/include/asio/basic_streambuf.hpp:263-274 | `sbumpc` through `underflow` removes the front of the queue |
| `StreamBuf.StepRefinesIff` | 3rdparty/asio-1.26.0/include/asio/basic_streambuf.hpp:214-346 | one call from any valid state observes what a bounded queue observes and keeps the invariant; the bytes agree with the queue if and only if the call is harmless |
| `StreamBuf.RunRefines` | 3rdparty/asio-1.26.0/include/asio/basic_streambuf.hpp:131-346 | every harmless run of calls is a run of the queue: same bytes, same exceptions, same rest |
| `StreamBuf.TraceRefinesIff` | 3rdparty/asio-1.26.0/include/asio/basic_streambuf.hpp:131-346 | along any run the readable bytes are the queue after every call if and only if every call is harmless |
| `StreamBuf.FittingRunsAreHarmless` | 3rdparty/asio-1.26.0/include/asio/basic_streambuf.hpp:214-219 | a run in which no `prepare` asks for more than fits is harmless; `sputc` may throw freely |
| `StreamBuf.NewBufferIsFifo` | 3rdparty/asio-1.26.0/include/asio/basic_streambuf.hpp:131-141 | such a run from the constructor is a run of the empty queue |
| `StreamBuf.FifoConserves` | 3rdparty/asio-1.26.0/include/asio/basic_streambuf.hpp:158-254 | over every run of the queue, what was there and added is, in order, what was removed and is left |
| `StreamBuf.BasicStreambuf.constructor` | 3rdparty/asio-1.26.0/include/asio/basic_streambuf.hpp:131-141 | an empty valid buffer with at most 128 bytes of room |
| `StreamBuf.BasicStreambuf.Size` | 3rdparty/asio-1.26.0/include/asio/basic_streambuf.hpp:158-161 | the number of readable bytes, at most the maximum |
| `StreamBuf.BasicStreambuf.Data` | 3rdparty/asio-1.26.0/include/asio/basic_streambuf.hpp:192-196 | the readable bytes |
| `StreamBuf.BasicStreambuf.Reserve` | 3rdparty/asio-1.26.0/include/asio/basic_streambuf.hpp:308-346 | on the array: the state `Area.Reserve` gives, and throws exactly when the request does not fit |
| `StreamBuf.BasicStreambuf.Prepare` | 3rdparty/asio-1.26.0/include/asio/basic_streambuf.hpp:214-219 | n writable bytes at the start of the put area, contents kept, or the state a throw leaves |
| `StreamBuf.BasicStreambuf.Commit` | 3rdparty/asio-1.26.0/include/asio/basic_streambuf.hpp:233-238 | moves at most the put area into the get area |
| `StreamBuf.BasicStreambuf.Consume` | 3rdparty/asio-1.26.0/include/asio/basic_streambuf.hpp:247-254 | on the object: the state `Area.Consume` gives |
| `StreamBuf.BasicStreambuf.Underflow` | 3rdparty/asio-1.26.0/include/asio/basic_streambuf.hpp:263-274 | on the object: the state and byte `Area.Underflow` gives |
| `StreamBuf.BasicStreambuf.Overflow` | 3rdparty/asio-1.26.0/include/asio/basic_streambuf.hpp:283-306 | on the object: the state `Area.Overflow` gives; nothing for eof |
| `StreamBuf.BasicStreambuf.Sputc` | 3rdparty/asio-1.26.0/include/asio/basic_streambuf.hpp:283-306 | appends its byte or throws, and throws exactly when the buffer is full |
| `Tickets.TicketsDAO.SetTickets` | src/loginserver/database/TicketsDAO.cpp:10-41 | inserts or replaces the account's row, or fails without a write, or fails although the write took effect |
| `Tickets.TicketsDAO.ValidateLoginTicket` | src/loginserver/database/TicketsDAO.cpp:43-69 | true if and only if no failure and the row holds that login ticket |
| `Tickets.TicketsDAO.ValidateTickets` | src/worldserver/database/TicketsDAO.cpp:10-36 | true if and only if no failure and the row is exactly that triple |
| `Tickets.TicketsDAO.SetLoginTicket` | src/worldserver/database/TicketsDAO.cpp:38-69 | changes the login ticket of an existing row only, and says whether there was one; or fails without or after the write |
| `LoginProtocol.LoginPacketProcessor.ProcessPacket` | src/loginserver/network/LoginPacketProcessor.cpp:26-275 | connection, table, event and reply after a packet are those of `LoginProtocol.Step` |
| `LoginProtocol.LoginConnection.SendPacket` | src/loginserver/network/LoginConnection.cpp:68-94 | queues a reply only while open; the shutdown it asks for stays pending |
| `WorldProtocol.WorldPacketProcessor.ProcessPacket` | src/worldserver/network/WorldPacketProcessor.cpp:23-211 | the same for the world server and `WorldProtocol.Step` |
| `WorldProtocol.WorldConnection.SendPacket` | src/worldserver/network/WorldConnection.cpp:64-90 | queues a reply only while open |
| `TicketRuns.LoginStepFacts` | src/loginserver/network/LoginPacketProcessor.cpp:36-268 | one login packet: never goes back, gains an account only by an accepted password or a login ticket the table holds, writes only its own account, reports every write |
| `TicketRuns.WorldStepFacts` | src/worldserver/network/WorldPacketProcessor.cpp:63-200 | one world packet: an account is gained only by a triple the table holds for this server, only its row is written |
| `TicketRuns.StepAuthorised` | src/worldserver/network/WorldPacketProcessor.cpp:136-187 | every step of either server keeps every account in use authorised by an earlier accepted password |
| `TicketRuns.NobodyWithoutPassword` | src/loginserver/network/LoginPacketProcessor.cpp:96-256 | in every run of both servers, an account with a tickets row, at LoginOK or later, or Authenticated, had its password accepted before, however many reconnections lie between; and so had every account in the history at the time |
| `TicketRuns.StepHistorical` | src/worldserver/database/TicketsDAO.cpp:38-69 | every step keeps the table equal to the replay of the write history and every acceptance decided by the table of its moment |
| `TicketRuns.ReplayReadsLastWrites` | src/loginserver/database/TicketsDAO.cpp:20-29 | in a replayed table, server and world ticket come from the last `SetTickets` of the account, the login ticket from the last `SetTickets` or `SetLoginTicket` |
| `TicketRuns.NoSetNoRow` | src/worldserver/database/TicketsDAO.cpp:48-57 | an account without a `SetTickets` has no row, whatever `SetLoginTicket` did |
| `TicketRuns.AcceptedTicketsAreLastWritten` | src/worldserver/database/TicketsDAO.cpp:10-36 | in every run, each accepted triple was put together by those last writes before the acceptance |
| `TicketRuns.TableIsReplay` | src/loginserver/database/TicketsDAO.cpp:10-41 | in every run the table is the replay of the history |
| `TicketRuns.ValidatesIffLastWritten` | src/worldserver/database/TicketsDAO.cpp:10-36 | at every point of every run a triple validates if and only if world ticket and id come from the account's last `SetTickets` and the login ticket from its last `SetTickets` or `SetLoginTicket`, so at most one per account |
| `TicketRuns.ConnectionLife` | src/loginserver/network/LoginConnection.h:16-24 | from any point of any run to any later one: state rank never falls, account id is nonzero exactly at LoginOK or later, account and ticket are written once, and the connection has made one successful `SetTickets` exactly if a server is selected, pending shutdown or not |
| `TicketAnswers.ToldIsHeld` | src/loginserver/network/LoginPacketProcessor.cpp:96-256 | in every run a connection acts with exactly the account and login ticket its client was last told, and with none before |
| `TicketAnswers.GameGuardAnswer` | src/loginserver/network/LoginPacketProcessor.cpp:36-69 | the session id handed out at the accept, and no other, leads to GameGuardOK; any other is answered with failure 1 and shuts the connection down, with state, table and history as they were |
| `TicketAnswers.PasswordAnswer` | src/loginserver/network/LoginPacketProcessor.cpp:70-127 | at GameGuardOK, a long enough message that decrypts to an accepted password, and no other, leads to LoginOK; the reply names the password's account and the new ticket, which the connection then holds; else failure 1 or 2 and nothing advances |
| `TicketAnswers.ListAnswer` | src/loginserver/network/LoginPacketProcessor.cpp:128-192 | at LoginOK the list goes to a client that sends back the account and ticket it was told; any others close the connection unanswered, and no servers is failure 6 |
| `TicketAnswers.SelectAnswer` | src/loginserver/network/LoginPacketProcessor.cpp:193-237 | with the list sent: account and ticket other than told close the connection and change no table or history; a full server is answered 15 and changes nothing; else `Play(world ticket, server)`, and the account's row, and no other, is then the ticket told, that world ticket and that server; a failing database is answered with failure 1, with that row stored or not |
| `TicketAnswers.RowHasLastTicket` | src/loginserver/database/TicketsDAO.cpp:50-56 | a decided history wrote a login ticket last for an account if and only if the replayed table has it in the account's row |
| `TicketAnswers.ReconnectAnswer` | src/loginserver/network/LoginPacketProcessor.cpp:238-268 | at every point of every run, a new connection that asks to reconnect is taken in if and only if the database works and its ticket is that of the account's last `SetTickets` or `SetLoginTicket`; else it is closed and nothing else changes |
| `TicketAnswers.ReconnectionsUseLastTicket` | src/loginserver/database/TicketsDAO.cpp:43-69 | in every run each reconnection carries the login ticket last written for its account before it |
| `TicketAnswers.OutOfOrderAnswer` | src/loginserver/network/LoginPacketProcessor.cpp:26-275 | a packet in the wrong state closes the connection, an unknown one or any on a closed connection does nothing, and none is answered |
| `TicketAnswers.FailedIsClosed` | src/loginserver/network/LoginConnection.cpp:68-94 | once the reply to a refused packet is out the connection is closed |
| `TicketAnswers.AuthenticateAnswer` | src/worldserver/network/WorldPacketProcessor.cpp:117-148 | at every point of every run, a new connection is authenticated and answered true if and only if the database works and the account's row has this login ticket, this server and a world ticket whose upper half is the first number and whose lower half is the second; else answered false and shut down |
| `TicketAnswers.HalvesAnswer` | src/worldserver/network/WorldPacketProcessor.cpp:126-136 | the halves of the stored world ticket, upper first, with the stored login ticket are answered true |
| `TicketAnswers.NewTicketAnswer` | src/worldserver/network/WorldPacketProcessor.cpp:174-200 | the ticket in the reply is the one stored in the row of the connection's account, whose rest and all other rows stay; a failing database closes the connection without an answer |
| `TicketAnswers.NewTicketReconnects` | src/worldserver/network/WorldPacketProcessor.cpp:174-200 | after that reply a new connection to the login server is taken in for the account if and only if it shows the ticket of the reply |
| `TicketAnswers.OtherWorldAnswers` | src/worldserver/network/WorldPacketProcessor.cpp:34-115 | time, ping, soft disconnection, server information, quit and character list: their answers, which of them close the connection, and that none changes state, table or history |
| `TicketAnswers.OutOfOrderWorldAnswer` | src/worldserver/network/WorldPacketProcessor.cpp:119-181 | a packet out of order or on a closed connection is not answered, changes nothing else and leaves the connection closed |
| `TicketAnswers.WayThrough` | src/loginserver/network/LoginPacketProcessor.cpp:36-237 | from any state, a new client with an accepted password that sends back the ids it is told gets the four replies up to `Play(wt, server)`, and its row is then the ticket it was told, wt and server |
| `TicketAnswers.VisitSucceeds` | src/worldserver/network/WorldPacketProcessor.cpp:117-200 | from any state with that row, a client showing it is authenticated, and gets a new ticket into the row |
| `TicketAnswers.FullCircle` | src/loginserver/network/LoginPacketProcessor.cpp:36-268 | after both, a new connection is taken back in with the new ticket and no password |
| `Packets.LittleEndianRoundTrip` | include/shared/network/Packet.h:38-58 | a number of any width written little-endian is read back |
| `Packets.LittleEndianAt` | include/shared/network/Packet.h:54-58 | byte i of a written number of any width is that number without its i lowest bytes, modulo 256 |
| `Packets.PatchedAt` | src/shared/network/Packet.cpp:97-107 | `WriteBytes` puts byte k at position + k, leaves every byte outside [position, position + length) as it was, and grows no further than to the end of what it wrote |
| `Packets.PatchedZeroesAt` | src/shared/network/Packet.cpp:121-131 | `WriteZeroes` leaves every byte outside its range as it was |
| `Packets.ReadsStayInside` | src/shared/network/Packet.cpp:68-95 | no read moves the position back or out of the packet, and one that finds too little gives zero or nothing and does not move |
| `Packets.WriteZeroesTightIff` | src/shared/network/Packet.cpp:121-131 | `WriteZeroes` grows the packet like `WriteBytes` of zeroes if and only if the position is at the end or nothing grows |
| `Packets.TruncatedTextIff` | src/shared/network/Packet.cpp:78-95 | a declared string length is cut to the bytes that remain and the position stays within the size, if and only if position and length do not wrap in 32 bits |
| `Packets.WrappingTextExample` | src/shared/network/Packet.cpp:78-95 | a five-byte packet on which the length check wraps and the copy leaves the packet |
| `Packets.FieldRoundTrip` | src/shared/network/Packet.cpp:68-131 | any one field is read back and the position moves by its size |
| `Packets.FieldsRoundTrip` | src/shared/network/Packet.cpp:68-131 | any list of numbers, bytes, strings and zeroes is read back in order from where it was written |
| `Packets.PacketRoundTrip` | src/shared/network/Packet.cpp:7-10 | the same for a new packet read from position 2, ending at its size |
| `Packets.Packet.constructor` | src/shared/network/Packet.cpp:7-10 | two zero bytes and position 2 |
| `Packets.Packet.Read` | include/shared/network/Packet.h:38-47 | the number at the position, or zero and no progress if the packet is too short |
| `Packets.Packet.Write` | include/shared/network/Packet.h:54-58 | the number at the position; every byte outside its range is as it was; appended when the position is at the end |
| `Packets.Packet.ReadBytes` | src/shared/network/Packet.cpp:68-76 | the bytes at the position, or none and no progress |
| `Packets.Packet.ReadString` | src/shared/network/Packet.cpp:78-95 | length and text, or the out-of-bounds copy a wrapped sum leads to, stated as such |
| `Packets.Packet.WriteBytes` | src/shared/network/Packet.cpp:97-107 | the bytes over whatever is at the position, growing to their end; every byte outside that range is as it was |
| `Packets.Packet.WriteString` | src/shared/network/Packet.cpp:109-119 | length and text at the position; appended when the position is at the end |
| `Packets.Packet.WriteZeroes` | src/shared/network/Packet.cpp:121-131 | zeroes at the position, growing by their number |
| `Packets.Build` | src/shared/network/Packet.cpp:7-131 | any list of writes from construction keeps the position at the size and appends the fields |
| `Framing.IntendedContinues` | src/shared/network/TCPConnection.cpp:88-119 | parsing the kept tail with more bytes continues the parse of the whole |
| `Framing.ChunkingIrrelevant` | src/shared/network/TCPConnection.cpp:74-120 | for every split of every stream, the frames handed on and the tail kept are those of the concatenation |
| `Framing.TwoChunkingsAgree` | src/shared/network/TCPConnection.cpp:74-120 | two splits of one stream give the same packets and the same rest |
| `Framing.WellFormedIffEveryCall` | src/shared/network/TCPConnection.cpp:88-105 | for every split, some delivery meets a length field below 2 if and only if the stream has one where a frame should start |
| `Framing.StreamRoundTrip` | src/shared/network/TCPConnection.cpp:92-105 | the frames of a sender are exactly what is cut out of its stream, nothing is left |
| `Framing.DeliveredPads` | src/shared/network/TCPConnection.cpp:98-101 | a delivered packet holds the payload, padded with zeroes to two bytes |
| `Framing.SameFrameIff` | src/shared/network/TCPConnection.cpp:92-111 | a complete frame further on equals the first if and only if all its bytes do |
| `Framing.RepeatedIffCopies` | src/shared/network/TCPConnection.cpp:107-118 | from any offset, the frames there are the first frame repeated, and the rest its start, if and only if the bytes are copies of the first frame |
| `Framing.SameCallIff` | src/shared/network/TCPConnection.cpp:107-118 | inside the buffer, one delivery as written hands on and keeps what is intended if and only if the stored stream repeats its first frame |
| `Framing.WrittenIff` | src/shared/network/TCPConnection.cpp:78-118 | one delivery as written does what is intended, with nothing undefined, if and only if the stored stream repeats its first frame, does not start with a length field below 2, and neither the chunk nor the move, which reaches two bytes further, leaves the buffer after one doubling |
| `Framing.WrittenRunIff` | src/shared/network/TCPConnection.cpp:74-120 | over a whole connection, with the capacity carried along, the code as written does what is intended at every delivery if and only if each delivery meets that condition |
| `Framing.OverrunExample` | src/shared/network/TCPConnection.cpp:110 | a frame of 5000 bytes and the start of the same again, in two chunks of 4096: the stream repeats its first frame, and the move ends two bytes behind the buffer |
| `Framing.WrittenDropsSecondFrame` | src/shared/network/TCPConnection.cpp:110 | two frames in one chunk on which the code as written loses the second |
| `Framing.ExactDeliveryIsPerformed` | src/shared/network/TCPConnection.cpp:113-118 | a delivery that ends with the frame it completes, or completes none, moves nothing: it is handled as intended if and only if the field is good and the chunk fits |
| `Framing.TCPConnection.constructor` | src/shared/network/TCPConnection.cpp:19-27 | open, with an empty buffer of 8192 bytes |
| `Framing.TCPConnection.MakeRoom` | src/shared/network/TCPConnection.cpp:78-83 | doubles the buffer once if the bytes do not fit, keeping what is stored |
| `Framing.TCPConnection.Append` | src/shared/network/TCPConnection.cpp:78-86 | chunks of at most 4096 bytes always fit after one doubling, and no buffer ever exceeds 131072 bytes |
| `Framing.TCPConnection.ReceiveIntended` | src/shared/network/TCPConnection.cpp:74-120 | with the compaction the comment describes: delivers and keeps what `Intended` says, terminates, and stores at most 65534 bytes after every call; undefined exactly where a length field below 2 is met |
| `Framing.TCPConnection.ReceiveAsWritten` | src/shared/network/TCPConnection.cpp:74-120 | as written: delivers and keeps what `Performed` says, terminates, same bounds; undefined exactly where `Performed` has no value |
| `PacketProcessor.GlobalFifo` | src/shared/network/PacketProcessor.cpp:41-72 | for any number of workers and any schedule: enqueued is finished, in progress and queued, in order; at most one worker processes; no worker leaves an iteration with the lock |
| `PacketProcessor.EveryCallOnce` | src/shared/network/PacketProcessor.cpp:41-72 | over every run every packet is finished, in progress, queued or waiting in `EnqueuePacket` exactly as often as a call was made with it, counted from the calls |
| `PacketProcessor.CallersOrder` | src/shared/network/PacketProcessor.cpp:41-72 | in every run the packets of one thread are processed in the order of that thread's calls, whatever other threads do |
| `PacketProcessor.FrontCanFinish` | src/shared/network/PacketProcessor.cpp:50-72 | before `Stop`, from every reachable state with a worker and a packet pushed but not finished, the threads can go on so that the front one is the next finished |
| `PacketProcessor.StepOwned` | src/shared/network/PacketProcessor.cpp:41-72 | after every step exactly the thread whose position says so holds the mutex |
| `PacketProcessor.FewPacketsAfterStop` | src/shared/network/PacketProcessor.cpp:28-39 | after `Stop` clears the flag every worker takes at most one packet, so all together at most as many as there are threads, and they finish at most as many |
| `PacketProcessor.StoppedWorkersRunOut` | src/shared/network/PacketProcessor.cpp:28-72 | after `Stop` each worker has at most six more effective steps in any schedule, the return of its `ProcessPacket` among them |
| `PacketProcessor.NoDeadlockIff` | src/shared/network/PacketProcessor.cpp:32-72 | in every reachable state with a worker still to exit, nobody can go on if and only if a worker is inside a `ProcessPacket` that does not return, with the lock, and all others wait for it or have nothing to do |
| `PacketProcessor.NoDeadlock` | src/shared/network/PacketProcessor.cpp:32-72 | if every `ProcessPacket` returns, some thread can go on until the last worker has exited |
| `PacketProcessor.NothingUntilReturn` | src/shared/network/PacketProcessor.cpp:54-70 | while a `ProcessPacket` does not return, in any schedule nothing is enqueued, taken or finished and its worker does not exit |
| `PacketProcessor.BadOutlookStays` | src/shared/network/PacketProcessor.cpp:50-72 | after `Stop`, if a packet that the workers past the flag must still take is a bad one, no step changes that but a worker taking it |
| `PacketProcessor.Processor.Start` | src/shared/network/PacketProcessor.cpp:13-26 | sets the flag and creates exactly the given number of workers, each at the top of its loop |
| `PacketProcessor.Processor.EnqueuePacket` | src/shared/network/PacketProcessor.cpp:41-48 | the queue afterwards is the queue before with this packet behind it, once |
| `PacketProcessor.Processor.TakePacket` | src/shared/network/PacketProcessor.cpp:54-64 | takes the front packet off the queue, or finds it empty and changes nothing |
| `ConnectionPool.NoLostWakeup` | src/shared/database/PSQLConnectionPool.cpp:24-48 | in every reachable state with a sleeping thread, idle connections are at most the threads awake inside plus the notifies owed, spurious wakeups included |
| `ConnectionPool.SleeperIsServed` | src/shared/database/PSQLConnectionPool.cpp:24-48 | from every reachable state with a sleeper and an idle connection, steps inside the pool alone, without spurious wakeup or new caller, give some thread a connection |
| `ConnectionPool.EveryConnectionOnce` | src/shared/database/PSQLConnectionPool.cpp:7-48 | in every reachable state each connection created is in one place once: idle, held by one thread, lost to an exception, or dropped by `Shutdown` |
| `ConnectionPool.HandedOutInOrder` | src/shared/database/PSQLConnectionPool.cpp:7-48 | in every run the connections that left the queue are, in order, the first of those that entered it: those opened, then those given back in the order of return; the idle ones are the rest |
| `ConnectionPool.ExhaustedIffGone` | src/shared/database/PSQLConnectionPool.cpp:17-48 | in every reachable state nothing is idle or carried if and only if every connection was lost or dropped |
| `ConnectionPool.ExhaustedForever` | src/shared/database/PSQLConnectionPool.cpp:17-37 | then no thread ever gets a connection again |
| `ConnectionPool.ServedIffSomeLeft` | src/shared/database/PSQLConnectionPool.cpp:24-48 | from every reachable state with a thread, some continuation gives a thread a connection, if and only if one without exceptions, shutdown and spurious wakeups does, if and only if a connection is neither lost nor dropped |
| `ConnectionPool.ServedIffFewerLost` | src/loginserver/database/TicketsDAO.cpp:14-38 | idle, held, lost and dropped connections add up to those created, and a thread can be served if and only if fewer are lost and dropped than were created |
| `ConnectionPool.StuckIsExhausted` | src/shared/database/PSQLConnectionPool.cpp:28-31 | if a thread sleeps and nobody is inside or holds a connection, every connection was lost or dropped |
| `ConnectionPool.QuietCallerSleepsIff` | src/shared/database/PSQLConnectionPool.cpp:24-37 | with nobody inside but sleepers, the next caller goes to sleep if and only if every connection was lost or dropped |
| `ConnectionPool.TwoExceptionsExhaustTwoConnections` | src/loginserver/database/TicketsDAO.cpp:14-38 | with the login server's two connections, two exceptions put the next caller to sleep |
| `ConnectionPool.PSQLConnectionPool.Initialize` | src/shared/database/PSQLConnectionPool.cpp:7-15 | adds the given number of connections behind those there are |
| `ConnectionPool.PSQLConnectionPool.GetConnection` | src/shared/database/PSQLConnectionPool.cpp:28-36 | takes the front connection off the queue, or finds it empty and must wait |
| `ConnectionPool.PSQLConnectionPool.FreeConnection` | src/shared/database/PSQLConnectionPool.cpp:39-43 | the queue afterwards is the queue before with the connection behind it |
| `ConnectionPool.PSQLConnectionPool.Shutdown` | src/shared/database/PSQLConnectionPool.cpp:17-22 | drops the idle connections |
| `PooledWorkers.NextKeeps` | src/shared/network/PacketProcessor.cpp:54-70 | every step of workers and pools keeps the invariants of both, and that a thread is in one pool at most and in a packet that has asked a pool then |
| `PooledWorkers.SleepsOnlyIfAllGone` | src/shared/database/PSQLConnectionPool.cpp:28-31 | in every reachable state a worker sleeps in `GetConnection` only if every connection of that pool was lost: the packet mutex keeps workers from waiting for one another's connections |
| `PooledWorkers.StopReturnsIff` | src/shared/network/PacketProcessor.cpp:28-72 | in every reachable state after `Stop`, for any workers, producers, pools and packets: all workers can still exit if and only if none wants a connection of a pool that has none left, the packet in progress ends and its first pool, if not asked yet, has one left, and the same holds for the packets that the workers past their look at the flag must still take, one being pushed included |
| `PooledWorkers.LeftIff` | src/shared/database/PSQLConnectionPool.cpp:7-48 | a pool has a connection left if and only if one is neither lost nor dropped |
| `PooledWorkers.StopReturnsIffSomeLeft` | src/loginserver/database/TicketsDAO.cpp:14-38 | with a worker in `GetConnection`, `Stop` can return if and only if a connection of that pool is neither lost nor dropped, its packet ends, and so do those still to be taken |
| `PooledWorkers.StuckServerIsDead` | src/shared/network/PacketProcessor.cpp:41-72 | once a worker is in a packet that does not end, or needs a pool with nothing left, in every continuation nothing is enqueued, taken or finished and the worker does not exit |
| `PooledWorkers.HungServerIsDead` | src/shared/database/PSQLConnectionPool.cpp:28-31 | so it is once a worker asks a pool all of whose connections were lost |
| `PooledWorkers.HangIsReachable` | src/loginserver/network/LoginPacketProcessor.cpp:20-21 | a server with one worker, as the login server, can reach such a state from the start, however many connections its pool has, if packets ask it |
| `SocketBuf.PumpIsOffered` | 3rdparty/asio-1.26.0/include/asio/basic_socket_streambuf.hpp:490-523 | the send loop gets out the smaller of what it has and what the socket takes before the deadline, an error or a failed wait, and succeeds if and only if the socket takes it all |
| `SocketBuf.EofKeepsPending` | 3rdparty/asio-1.26.0/include/asio/basic_socket_streambuf.hpp:468-540 | a call that returns eof sent a prefix of the pending bytes and left the put area as it was |
| `SocketBuf.CallConserves` | 3rdparty/asio-1.26.0/include/asio/basic_socket_streambuf.hpp:468-558 | any other call: sent and pending together grow by the character it took |
| `SocketBuf.SyncFlushesIff` | 3rdparty/asio-1.26.0/include/asio/basic_socket_streambuf.hpp:484-545 | `sync` succeeds if and only if the socket takes all that is pending, and then nothing is pending and exactly that was sent; otherwise what the socket takes was sent and all of it is still pending |
| `SocketBuf.PutExact` | 3rdparty/asio-1.26.0/include/asio/basic_socket_streambuf.hpp:468-540 | a character is buffered while there is room and nothing is sent; with a full buffer it is taken if and only if the socket takes the whole buffer, and is then alone in it; unbuffered if and only if the socket takes it |
| `SocketBuf.RunCounts` | 3rdparty/asio-1.26.0/include/asio/basic_socket_streambuf.hpp:468-558 | for any calls and any socket, bytes sent and pending are those put plus those the socket took in flushes it cut short |
| `SocketBuf.ConservedIff` | 3rdparty/asio-1.26.0/include/asio/basic_socket_streambuf.hpp:468-558 | over any run, sent followed by pending is exactly what was put if and only if no flush met a socket that would take some but not all of what was pending |
| `SocketBuf.FlushIsSafeIff` | 3rdparty/asio-1.26.0/include/asio/basic_socket_streambuf.hpp:468-545 | before the call: a failing flush is sure to have sent nothing, whatever the socket does, if and only if at most one character is pending |
| `SocketBuf.NoEofNoResend` | 3rdparty/asio-1.26.0/include/asio/basic_socket_streambuf.hpp:468-558 | in particular if no call returned eof |
| `SocketBuf.UnbufferedNeverResends` | 3rdparty/asio-1.26.0/include/asio/basic_socket_streambuf.hpp:470-478 | an unbuffered call that fails changed nothing |
| `SocketBuf.ResendExample` | 3rdparty/asio-1.26.0/include/asio/basic_socket_streambuf.hpp:484-540 | a run in which one byte is sent twice |
| `SocketBuf.BasicSocketStreambuf.Send` | 3rdparty/asio-1.26.0/include/asio/basic_socket_streambuf.hpp:484-526 | the send loop gets out the prefix that short sends, errors and waits allow |
| `SocketBuf.BasicSocketStreambuf.Overflow` | 3rdparty/asio-1.26.0/include/asio/basic_socket_streambuf.hpp:468-540 | on the array: the state and result of `Area.Overflow` |
| `SocketBuf.BasicSocketStreambuf.SetBuf` | 3rdparty/asio-1.26.0/include/asio/basic_socket_streambuf.hpp:547-558 | becomes unbuffered, or fails while characters are pending |
| `Lifecycle.NextKeeps` | src/shared/network/TCPConnection.cpp:19-67 | every interleaved step keeps the relation of flag, client pointer, client list and read handler |
| `Lifecycle.OpenIsListedOnce` | src/shared/network/TCPConnection.cpp:57-67 | in every interleaving an open connection has a client, a pending read and exactly one place in the list; `OnDisconnect` runs at most once, exactly for connections without a client, which are never listed |
| `Lifecycle.ClosedButListed` | src/shared/network/TCPServer.cpp:47-86 | a closed connection that is listed is being accepted, or being removed by a thread on its way |
| `Lifecycle.ReadHandlerIsSafe` | src/shared/network/TCPClient.cpp:24-45 | the read handler's `SetOpen(false)` never meets a null client, in any interleaving |
| `Lifecycle.StrandedIffOverlapped` | src/shared/network/TCPConnection.cpp:29-50 | in every interleaving a thread is left with a null client if and only if `OnDisconnect` once ran between its look at the flag and its last use of the client |
| `Lifecycle.StrandedMeetsNull` | src/shared/network/TCPConnection.cpp:34-50 | such a thread uses the null client within two steps |
| `Lifecycle.NullIffOverlapped` | src/shared/network/TCPConnection.cpp:29-50 | in every interleaving a null client was used or will be by two steps of some thread, if and only if `OnDisconnect` once overlapped a thread's use of the client |
| `Lifecycle.NullNeedsOverlap` | src/loginserver/network/LoginConnection.cpp:77-93 | no null client is used without such an overlap |
| `Lifecycle.RaceExample` | src/shared/network/TCPConnection.cpp:34-41 | an interleaving of a read error and `CloseConnection` that uses a null client |
| `Lifecycle.WholeOperationsAreSafe` | src/shared/network/TCPClient.cpp:24-66 | with accept, read error, close, shutdown and send as whole operations in any order, no null client is used and the list holds each open connection once and no closed one |
| `Lifecycle.WholeExact` | src/shared/network/TCPConnection.cpp:29-67 | after any whole operations the steps of the next one together do exactly this: an accept adds one open connection, linked and listed last; a read error closes, unlists and lets go once; closing an open connection closes and unlists that one only; closing a closed one and sending change nothing |
| `Lifecycle.RefusesForever` | src/shared/network/TCPServer.cpp:61-91 | from any point of any run on, another connection can be accepted if and only if no accept failed and no null client was used |
| `Lifecycle.AcceptingIff` | src/shared/network/TCPServer.cpp:61-91 | the accept stays armed along any run if and only if no accept completes with an error |
| `Lifecycle.TCPServer.HandleAccept` | src/shared/network/TCPServer.cpp:61-91 | appends one new open connection with a reading client and goes on, or stops accepting; if the peer has gone, the exception out of `OnConnect` leaves the connection listed and open without a pending read |
| `Lifecycle.TCPServer.RemoveClientConnection` | src/shared/network/TCPServer.cpp:47-59 | erases the first occurrence, if any |
| `Lifecycle.TCPConnection.SetOpen` | src/shared/network/TCPConnection.cpp:57-67 | sets the flag; false leaves the server's list |
| `Lifecycle.TCPConnection.CloseConnection` | src/shared/network/TCPConnection.cpp:34-50 | keeps the server's invariant; closes and unlists an open connection, does nothing to a closed one |
| `Lifecycle.TCPClient.Start` | src/shared/network/TCPClient.cpp:57-66 | connects client and connection, opens it, starts reading |
| `Lifecycle.TCPClient.HandleRead` | src/shared/network/TCPClient.cpp:28-44 | keeps the server's invariant; an error closes, unlists and lets go of the client, and reading stops |
| `StringUtility.Explode` | src/shared/utilities/StringUtility.cpp:26-43 | terminates for a nonempty separator with the pieces `Pieces` gives |
| `StringUtility.PiecesJoin` | src/shared/utilities/StringUtility.cpp:26-43 | joining the pieces with the separator gives back the string |
| `StringUtility.PiecesContainNoSeparator` | src/shared/utilities/StringUtility.cpp:26-43 | no piece contains the separator |
| `StringUtility.JoinPieces` | src/shared/utilities/StringUtility.cpp:26-43 | for a one-character separator, splitting undoes joining |
| `StringUtility.AtoiPrinted` | src/shared/utilities/StringUtility.cpp:64-78 | parsing a printed number gives the number |
| `StringUtility.AtoiReads` | src/shared/utilities/StringUtility.cpp:74 | `atoi` reads over spaces and one sign, applies the sign, stops at the first character that is no digit, and is 0 without digits |
| `StringUtility.PiecesCount` | src/shared/utilities/StringUtility.cpp:26-43 | for a one-character separator there is one piece more than there are separators |
| `StringUtility.IPv4StringToByteArray` | src/shared/utilities/StringUtility.cpp:64-78 | the four parts as bytes, or no bytes for anything but four parts |
| `StringUtility.IPv4RoundTrip` | src/shared/utilities/StringUtility.cpp:64-78 | inverts dotted-decimal printing of any four bytes |
| `StringUtility.IPv4Iff` | src/shared/utilities/StringUtility.cpp:66-71 | a string gives four bytes if and only if it has exactly three dots, and else none |
| `ServerList.MaxIdIsMaximum` | src/loginserver/network/LoginPacketProcessor.cpp:151-185 | the highest id sent is at least every id and is one of them |
| `ServerList.ReplyLength` | src/loginserver/network/LoginPacketProcessor.cpp:151-185 | the unpadded reply has 8 + 21 n + maxId bytes |
| `ServerList.EntryRoundTrip` | src/loginserver/network/LoginPacketProcessor.cpp:151-185 | one server's entry is decoded wherever it stands: id, the four address bytes, port, 0, 1, the players modulo 2^16, online, 1, 0 |
| `ServerList.EntryLayout` | src/loginserver/network/LoginPacketProcessor.cpp:164-176 | byte by byte, the 21 bytes of an entry from the server's fields |
| `ServerList.ReplyRoundTripIff` | src/loginserver/network/LoginPacketProcessor.cpp:146-187 | for every list: a reply is sent and from it a decoder recovers opcode 4, last server 0, every entry, the highest id, flag 1, the number 2 for every id and the end, if and only if there is a server, there are fewer than 256, none has id 255 and every address has four parts |
| `ServerList.CharacterLoopEndsIff` | src/loginserver/network/LoginPacketProcessor.cpp:182-185 | the loop with the 8-bit counter, as steps on counter and packet, ends if and only if the highest id is not 255, and then has written a number for every id |
| `ServerList.SendsIff` | src/loginserver/network/LoginPacketProcessor.cpp:146-187 | what the server gets to send is the reply the lemmas are about, if there is a server, the addresses have four parts and the highest id is not 255, and nothing otherwise |
| `ServerList.LongListExample` | src/loginserver/network/LoginPacketProcessor.cpp:155 | from a reply about 256 servers a client decodes none |
| `ServerList.Id255Example` | src/loginserver/network/LoginPacketProcessor.cpp:182-187 | with a server of id 255 nothing is ever sent |
| `ServerList.BuildReply` | src/loginserver/network/LoginPacketProcessor.cpp:146-185 | without servers nothing is built; else the loops build exactly the reply the lemmas are about |

## Left out

- `Framing.TCPConnection.ReceiveAsWritten`: what memory holds after undefined behaviour; the contract says only when that happens.
- `StreamBuf.BasicStreambuf.Commit`: counts of 2^31 or more are excluded; `pbump` takes an `int`.
- `StreamBuf.BasicStreambuf.Consume`: counts of 2^31 or more that are really consumed, and pointer sums past the address space, are excluded.
- `Packets.Packet.WriteBytes`: sums of position and length that wrap in 32 bits are excluded.
- `Packets.Packet.Write`: the same.
- `Packets.Packet.ReadBytes`: the same.
- `Packets.Packet.WriteString`: the same.
- `Packets.Packet.WriteZeroes`: a position past the end of the packet is excluded; the source then writes outside its vector.
- `StringUtility.IPv4StringToByteArray`: numbers outside the range of `int`, for which `atoi` is undefined, are excluded.
- `ServerList.BuildReply`: addresses without four parts and a highest id of 255 are excluded from the method, which could not end or would read outside an empty vector; `ServerList.ReplyRoundTripIff` covers them.
- `Tickets.TicketsDAO.SetTickets`: one atomic step; the repository has no definition of the tickets table, and one row per account follows from the conflict clause.
- `StreamBuf.BasicStreambuf.Reserve`: the vector of the object always grows; `StreamBuf.ReserveThrowsIff` covers one that fails to.
- `StreamBuf.OverflowExact`: the same; with a vector that fails to grow `overflow` also throws.
- `PooledWorkers.StopReturnsIff`: the threads of the pools are the workers, which are their only users in the servers; a packet fixes the pool it asks first, and whether it asks again is left open.
- `PacketProcessor.Processor.Start`: called once and before `Stop`; a restart is not modelled.
- `ConnectionPool.PSQLConnectionPool.Initialize`: the machine starts behind it; a pool initialised while threads wait is not modelled.
- `Lifecycle.NextKeeps`: the exception out of `OnConnect`, which `Lifecycle.TCPServer.HandleAccept` covers, ends the process, and so the interleaved runs.
- Interleaved threads are machines on values; the classes beside them hold what is done in one go under a lock, not the scheduling. `m_bContinue` and `m_bIsOpen` are treated as atomic.
- Object lifetimes: which thread deletes a connection, client or packet last.
- Move construction and move assignment of the stream buffers, `ec_` values, the get area of the socket stream buffer, and waits without a deadline.
- Sockets, asio's threads and strands, both `main` programs, configuration, JSON, logging, files and hex dumps: input and output; only their completions appear, as steps.
- RSA, Blowfish, SHA1 and the packet encryption, with the padding arithmetic in `LoginConnection::SendPacket` that depends on it.
- SQL and libpqxx, `AccountsDAO::Authenticate` (an input: 0 or an account id) and `RAND_bytes` (arbitrary values, so no freshness of tickets is claimed).
- The world server's opcode encoding in `WorldPacket` and the fixed answers to character list, ping and time packets beyond their kind.
