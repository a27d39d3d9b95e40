# Verification of the zero-touch tunnel and gNMI layers

A Dafny model of the concurrent and stateful parts of zero-touch, with proofs over every run
or every input.

* **Reverse gRPC tunnel** (`Frames`, `Endpoint`, `EndpointInvariant`, `Tunnel`, `Replies`,
  `Provenance`, `CloseStorm`, `SessionObject`, `Lives`). A labelled transition system: each `Act` is one atomic step of the reader
  loop, a pump, the forwarder, the keepalive timer or the outside world, at the grain of the
  code's lock sections (`CloseConn` is erase, mark, shutdown; a pump's exit is exchange, erase,
  send). Two ends are joined by two FIFO logs. `EndpointInvariant` proves one inductive
  invariant per end, on the assumption that the frames it is handed fit what it knows; `Tunnel`
  lets the two ends discharge that assumption for each other and draws the theorems. `Replies`
  says what every frame gets in return, `Provenance` where bytes, error texts and keepalives come
  from, both told by labels and logs only; `Lives` holds runs in which a write fails and a
  session ends.
  `SessionObject` is the `Session` class itself, and ties its methods and `WriteAll` to those
  steps.
* **Write fence** (`Fence`): `Send` and `Shutdown` at the grain of the mutex.
* **Descriptors** (`Descriptors`): reference counts of `Conn`, and a kernel that may reissue a
  closed number at once.
* **Registry and routing** (`Registration`, `Routing`): any number of handlers, clients and
  forwarders.
* **gNMI read and write path** (`Text`, `GnmiTree`, `PathPolicy`, `Gnmi`, `GnmiProperties`,
  `ReplyText`): the
  config tree with its in-place erase loop, the server's handlers, the denylist on both legs,
  the reply text. The path and value codecs are a parameter.
* **Inbound SMS** (`SmsTransport`): listener and reactor threads over one slot of the data store.
* **AT line framer** (`AtFramer`) and **command grammar** (`Command`).

A run is a sequence of labels; `Leads(s, run, t)` says it is enabled from `s` and ends in `t`.
Theorems quantify over all runs from the initial state, hence over all interleavings.

## Where the code and its documentation differ

* `inc/zerotouch/path_policy.hpp:27` promises a case-insensitive match; the code lowercases the
  path only. `PathPolicy.PromiseKeptExactlyWhen` says for which token lists the two agree on all
  paths, `PathPolicy.CapitalTokenExample` shows one where they do not. The default list agrees
  (`PathPolicy.DefaultTokensKeepThePromise`).
* `grpc-tunnel/src/tunnel_server.cc:97-101` says no entry may outlive its session. The guard
  at `grpc-tunnel/src/tunnel_server.cc:102` skips the removal of an empty name. For any number of
  handlers, `Registration.CorpseExactlyWhen` says exactly which entries are left over: that of the
  empty name, when its handler has moved on to another name and no Add of the empty name came
  after its own. `Registration.CorpseExample` is such a run. A handler given only non-empty names,
  as the protocol requires, leaves none (`Registration.NoCorpsesWithNames`).
* `src/ds_sms_transport.cpp:92` says that the same triple is delivered exactly once. The store has
  one slot and the object remembers one message, so a stored message is delivered exactly when
  `SmsTransport.DeliveredExactlyWhen` says: it is complete, a successful drain reads it before the
  next one is stored, and it is not the last one known. It can therefore be overwritten unread
  although announced and watched (`SmsTransport.MissedByOverwriting`), and a triple can come again
  after another one (`SmsTransport.RepeatedExactlyWhen`, `SmsTransport.DeliveredAgain`).
* The last message can be missed too, if it is announced between the two halves of
  `DsSmsTransport::start` (`SmsTransport.MissedAtStartUp`); while reads succeed that is the only
  way for a complete and unknown one that nothing overwrites (`SmsTransport.LastMissedExactlyWhen`).
* `sim/gnmi_tree.hpp:41` says that "/" returns the whole tree; it does exactly when every leaf
  begins with a slash and "/" is not itself a leaf beside others:
  `GnmiTree.RootReadsAllExactlyWhen`.
* One `erase` need not empty a path that is both a leaf and the root of a subtree:
  `GnmiTree.OneEraseEmptiesExactlyWhen`.

## Model

| member | source | states |
|---|---|---|
| Tunnel.TablesAgree | grpc-tunnel/src/session.cc:64-122 | in every reachable state where the session is up, both directions are drained and no thread is mid-step, both ends hold exactly the same stream ids |
| Tunnel.AStreamOpens | grpc-tunnel/src/tunnel_server.cc:174-199 | the quiet state above is reachable with a stream open on both ends |
| Tunnel.ClosedStaysClosed | grpc-tunnel/src/session.cc:64-118 | an end whose log holds a CLOSE for an id does not hold that id, in any reachable state |
| Tunnel.DroppedIsAnnounced | grpc-tunnel/src/session.cc:111-118 | while up, an end that dropped a stream has sent CLOSE, has received CLOSE, or has a thread about to send it |
| Tunnel.BytesArriveInOrder | grpc-tunnel/src/tunnel_client.cc:145-158 | per stream and direction, the bytes written to the far socket are a prefix of the bytes read from the near socket of the same stream |
| Tunnel.NothingLostOnCleanEnd | grpc-tunnel/src/session.cc:100-118 | after a pump ended on its own socket with `ours` true and no lost send, every CLOSE of the id follows all its DATA, and a far end about to take that CLOSE with the stream still open has written every byte read |
| Tunnel.NoStreamOutlivesSession | grpc-tunnel/src/tunnel_server.cc:151-155 | once the handler has torn down and no forwarder iteration is left, the table is empty in every later state, each connection ever added was shut down or given up by its pump, and nothing more is sent |
| Tunnel.FramesAreCausal | grpc-tunnel/src/tunnel_server.cc:182-199 | the OPENs are exactly 1..k in order; every DATA or CLOSE of the server follows the OPEN of its id; the client speaks of an id only after reading its OPEN and opens nothing |
| Tunnel.AddConnNeverOverwrites | grpc-tunnel/src/session.cc:51-56 | the id given to AddConn was never used at that end, so erase-by-id in a pump removes its own connection or nothing |
| Tunnel.StepKeepsSystemInv | grpc-tunnel/src/session.h:3-14 | the invariant of both ends and the FIFO relation of the logs survive every step of every thread |
| Tunnel.FramesFit | grpc-tunnel/src/tunnel_client.cc:103-175 | each end is only ever handed frames that fit the ids it knows |
| Replies.EveryFrameIsServed | grpc-tunnel/src/tunnel_client.cc:103-175 | whatever happens meanwhile, when a reader that took a frame is back for the next one on a live session: DATA was written in full, or answered with "local write failed" after a failed write, or with a plain CLOSE if the stream is not held; OPEN for another target was refused as "target mismatch", any other one has its pump running or was refused as "local dial failed"; a closed stream is off the table and shut or given up; REGISTER was acknowledged under its name |
| Replies.LateDataIsAnswered | grpc-tunnel/src/tunnel_client.cc:145-152 | DATA taken for a stream not held is answered with a CLOSE without error, at either end |
| Provenance.BytesCrossInOrder | grpc-tunnel/src/session.cc:96-109 | the bytes written to the far socket are a prefix of those that arrived at the near socket, as the labels of the run tell |
| Provenance.CleanExactlyWhenSocketEnded | grpc-tunnel/src/session.cc:100-118 | the end of a pump counts as clean exactly when its own socket ended in the run |
| Provenance.ComplaintsAreAnswers | grpc-tunnel/src/session.cc:111-118 | CLOSEs that carry an error are at most the OPENs and DATAs read: a pump ends without one |
| Provenance.EveryChunkFits | grpc-tunnel/src/session.cc:14-17 | every DATA frame carries between 1 byte and 32 KiB |
| Provenance.TimerAndForwarder | grpc-tunnel/src/tunnel_client.cc:47-60 | KEEPALIVEs in a log are exactly the timer's sends, OPENs exactly the forwarder's |
| Provenance.LookupsAreListed | grpc-tunnel/src/tunnel_server.cc:174-189 | the forwarder takes up a session only between its REGISTER and its removal or displacement, under the name registered |
| Lives.AWriteFails | grpc-tunnel/src/tunnel_client.cc:153-156 | a run in which a local write fails, the stream is dropped and the CLOSE says why |
| Lives.ASessionEnds | grpc-tunnel/src/tunnel_client.cc:177-181 | a run in which an end with an open stream tears down and its pump exits |
| EndpointInvariant.StepKeepsInv | grpc-tunnel/src/session.h:10-14 | one end alone keeps its invariant under every step, given fitting frames |
| EndpointInvariant.ReadKeepsInv | grpc-tunnel/src/tunnel_client.cc:103-175 | taking any fitting frame keeps the invariant |
| EndpointInvariant.ServeKeepsInv | grpc-tunnel/src/tunnel_client.cc:111-158 | serving OPEN and DATA, with refused dials, partial and failed writes, keeps it |
| EndpointInvariant.CloseConnKeepsInv | grpc-tunnel/src/session.cc:64-77 | each of the three steps of CloseConn keeps it |
| EndpointInvariant.LeaveKeepsInv | grpc-tunnel/src/tunnel_server.cc:151-155 | Remove, Shutdown and CloseAll, entry by entry, keep it |
| EndpointInvariant.PumpKeepsInv | grpc-tunnel/src/session.cc:96-122 | receiving, ending, the exchange and the erase of a pump keep it |
| EndpointInvariant.OtherKeepsInv | grpc-tunnel/src/tunnel_server.cc:174-199 | the forwarder's steps, arrivals and displacement keep it |
| EndpointInvariant.TransmitKeepsInv | grpc-tunnel/src/session.cc:24-28 | a send by any thread, accepted or refused, keeps it |
| CloseStorm.ClosesAreCaused | grpc-tunnel/src/session.cc:96-118 | an end never sends more CLOSEs than it has read OPENs and DATAs plus pumps that exited |
| CloseStorm.SilentRunsAreBounded | grpc-tunnel/src/tunnel_client.cc:111-180 | once sockets, listener and timer are silent, no run is longer than the weighted work left, inside the frame loops, through a teardown, or across both |
| CloseStorm.StalledIsIdle | grpc-tunnel/src/tunnel_server.cc:117-155 | such a run can only stop with every thread of both ends idle or gone, every frame sent to a running frame loop taken, and no pump left on a shut or readable socket |
| CloseStorm.StalledIsQuiescent | grpc-tunnel/src/tunnel_server.cc:117-143 | with both frame loops running it stops with both directions and all sockets drained and every thread at rest, and the tables agree if the session is up |
| CloseStorm.TeardownEnds | grpc-tunnel/src/tunnel_server.cc:151-155 | an end that has left its frame loop comes, within that bound, to the state where its handler is gone, its table empty, every connection released and every started pump exited |
| CloseStorm.StepUsesWork | grpc-tunnel/src/session.cc:64-118 | every silent step, teardown steps included, strictly lowers the weighted measure |
| SessionObject.Session.Send | grpc-tunnel/src/session.cc:24-28 | a frame reaches the stream exactly when the session is alive and the write succeeds |
| SessionObject.Session.AddConn | grpc-tunnel/src/session.cc:51-56 | the new connection is in the table under its id, open |
| SessionObject.Session.GetConn | grpc-tunnel/src/session.cc:58-62 | the connection in the table, or null |
| SessionObject.Session.CloseConn | grpc-tunnel/src/session.cc:64-77 | a held stream leaves the table with both flags set, an unknown id changes nothing, and the result tells which |
| SessionObject.Session.CloseAll | grpc-tunnel/src/session.cc:79-89 | the table is empty and exactly the connections it held are marked and shut down |
| SessionObject.CloseConnInThreeSteps | grpc-tunnel/src/session.cc:64-77 | the reader's three atomic steps compose to what CloseConn does |
| SessionObject.CloseAllInSteps | grpc-tunnel/src/session.cc:79-89 | swapping and sweeping, in any order, compose to what CloseAll does |
| SessionObject.WriteAll | grpc-tunnel/src/net.cc:85-97 | for any answers of the kernel, the bytes out and the status are those of the recursive specification |
| SessionObject.StopsAt | grpc-tunnel/src/net.cc:85-97 | while bytes are left, a refusal of the kernel fails the call and a missing answer leaves it waiting; signals and full buffers are retried; out are the bytes offered before |
| SessionObject.CompletesAt | grpc-tunnel/src/net.cc:85-97 | the call completes once the kernel has offered to take all bytes without a refusal before |
| SessionObject.FeedWritesWhatWriteAllSends | grpc-tunnel/src/net.cc:85-97 | the reader's write steps put on the socket exactly the bytes WriteAll reports and continue as it returns |
| Fence.WritesAreSerialised | grpc-tunnel/src/session.h:5-14 | at most one write is in flight, and none once Shutdown has returned |
| Fence.ShutdownIsAFence | grpc-tunnel/src/session.cc:46-49 | after Shutdown has returned no write is in flight or ever begins, for any number of threads |
| Fence.LiveSendsWrite | grpc-tunnel/src/session.cc:24-28 | each thread begins exactly one write for each send that looked before the fence, none for the others, and is inside the write from begin to end |
| Fence.CallsReturn | grpc-tunnel/src/session.cc:24-28 | calls are returned sends plus the one under way, and the writes counted are those begun |
| Fence.SomeoneCanMove | grpc-tunnel/src/session.cc:46-49 | no deadlock: while a send is under way or the handler is leaving, a thread can move |
| Fence.AWholeLife | grpc-tunnel/src/tunnel_server.cc:151-155 | a run with one write and a handler that returns |
| Descriptors.DescriptorsAreSafe | grpc-tunnel/src/session.h:31-41 | any system call that may come next hits the caller's own descriptor; a connection's descriptor is closed once, exactly when its last reference is gone; a number is open exactly when a thread holds it raw or a reference leads to it |
| Descriptors.NothingLeaks | grpc-tunnel/src/tunnel_server.cc:174-199 | with no raw number and no reference left, no descriptor is open |
| Descriptors.AcceptedIsPinned | grpc-tunnel/src/tunnel_server.cc:174-189 | an accepted number stays open and the thread's own until it is refused or wrapped |
| Descriptors.ReferencesArePassedOn | grpc-tunnel/src/session.cc:51-62 | a connection keeps the descriptor it was made from; table, pump and reader hold the very connection handed to them until they let go |
| Descriptors.LettingGo | grpc-tunnel/src/session.cc:64-89 | erase, drop and swap remove the reference, and a refused number is closed |
| Descriptors.ReleaseKeepsInv | grpc-tunnel/src/session.cc:20-22 | the death of a reference, the last one included, keeps counts and kernel in step |
| Descriptors.CopyKeepsInv | grpc-tunnel/src/session.cc:58-62 | copying a reference keeps counts and kernel in step |
| Registration.Registry.Add | grpc-tunnel/src/tunnel_server.cc:42-48 | afterwards the name answers this session and no other, every other name answers as before, and the map still agrees with the history of calls |
| Registration.Registry.Remove | grpc-tunnel/src/tunnel_server.cc:52-56 | afterwards the caller does not answer to the name; whoever else answers to any name still does, in particular a newer session under the same name |
| Registration.Registry.Get | grpc-tunnel/src/tunnel_server.cc:58-62 | over any history of calls, answers a session exactly when the last Add for the name was that session's and it has not removed the name since; otherwise none |
| Registration.NoCorpses | grpc-tunnel/src/tunnel_server.cc:96-108 | every entry names a handler still running under that name, save the empty entry of a handler that now has another name |
| Registration.NoCorpsesWithNames | grpc-tunnel/src/tunnel_server.cc:96-115 | an entry whose handler was given only non-empty names is served under its name, over every interleaving of any number of handlers |
| Registration.GetIsLastStandingAdd | grpc-tunnel/src/tunnel_server.cc:50-62 | t is mapped to h exactly when, by the labels of the run, the last Add for t was by h and h has not removed it since |
| Registration.CorpseExactlyWhen | grpc-tunnel/src/tunnel_server.cc:102-108 | over every interleaving of any number of handlers, an entry is not served by its handler exactly when it is the empty name's, the handler last went by another name, and no Add of the empty name came after its own |
| Registration.CorpseExample | grpc-tunnel/src/tunnel_server.cc:102-108 | a run that ends with a corpse |
| Routing.OpensReachTheirTarget | grpc-tunnel/src/tunnel_client.cc:120-127 | with clients that register one name each, every OPEN carries the name of the session it reaches, so the client's refusal is unreachable, and no session is sent an OPEN before its REGISTER |
| Routing.StepKeepsRouted | grpc-tunnel/src/tunnel_server.cc:174-189 | reconnects, displacement and forwarders keep every entry and every held session true to its name |
| Routing.AcceptedIsOpened | grpc-tunnel/src/tunnel_server.cc:174-199 | a connection accepted while its target is registered gets one OPEN of that name on the session registered then, whatever happens in between, and no other session gets one; otherwise nothing happens |
| Routing.OpensOnlyGrow | grpc-tunnel/src/tunnel_server.cc:189-199 | OPENs already sent on a session are never changed |
| Routing.AnOpenIsSent | grpc-tunnel/src/tunnel_server.cc:96-115 | a run that registers, accepts and opens |
| GnmiTree.Tree.Set | sim/gnmi_tree.hpp:36-38 | the ordered map gains or overwrites that one entry and keeps every other |
| GnmiTree.Tree.LookUp | sim/gnmi_tree.hpp:43-56 | the exact leaf if there is one, else the subtree, in key order |
| GnmiTree.Tree.Erase | sim/gnmi_tree.hpp:59-71 | the loop leaves exactly the unselected entries and returns how many went |
| GnmiTree.EraseRemovesWhatLookupLists | sim/gnmi_tree.hpp:43-71 | erase removes exactly what lookup lists, and counts it |
| GnmiTree.TwoErasesEmpty | sim/gnmi_tree.hpp:59-71 | after two erases of x, lookup of x is empty |
| GnmiTree.OneEraseEmptiesExactlyWhen | sim/gnmi_tree.hpp:59-71 | for every x, the root path included, one erase does so exactly when x is not both a leaf and the root of a subtree with another leaf |
| GnmiTree.OneEraseExample | sim/gnmi_tree.hpp:59-71 | a tree where one erase leaves something |
| GnmiTree.SubtreeIsSegmentwise | sim/gnmi_tree.hpp:49-54 | the prefix test holds exactly when the '/'-separated segments strictly extend |
| GnmiTree.LookupIsSegmentwise | sim/gnmi_tree.hpp:49-55 | a non-leaf path reads exactly the leaves whose segments strictly extend its own |
| GnmiTree.LookupLists | sim/gnmi_tree.hpp:43-56 | for every path: the leaf itself, else for "/" the leaves that begin with a slash, else the leaves whose segments strictly extend it; in key order |
| GnmiTree.RootReadsAllExactlyWhen | sim/gnmi_tree.hpp:40-42 | exactly when "/" returns the whole tree |
| Text.LessIsLexicographic | sim/gnmi_tree.hpp:36-38 | key order is the lexicographic order of std::string |
| PathPolicy.IsSensitivePath | src/path_policy.cpp:23-31 | true exactly when some non-empty token occurs in the lowercased path |
| PathPolicy.SensitiveExactlyWhen | src/path_policy.cpp:23-31 | for every list: exactly when some non-empty token without capitals occurs in the path, letter case aside |
| PathPolicy.DefaultTokensCatchSecrets | src/path_policy.cpp:13-21 | the default list catches exactly the paths in which one of the eleven words occurs in any letter case |
| PathPolicy.PromiseKeptExactlyWhen | inc/zerotouch/path_policy.hpp:26-28 | the code matches case-insensitively on all paths exactly when every token is itself caught |
| PathPolicy.LowercaseTokensKeepThePromise | inc/zerotouch/path_policy.hpp:26-28 | lowercase token lists match case-insensitively on all paths |
| PathPolicy.DefaultTokensKeepThePromise | src/path_policy.cpp:13-21 | so does the default list |
| PathPolicy.CapitalTokenExample | inc/zerotouch/path_policy.hpp:26-28 | a token with a capital letter that never matches |
| Gnmi.HandleGet | sim/zt_gnmi_simd.cpp:131-173 | one update per matched leaf of each path, NOT_FOUND when nothing matched |
| Gnmi.HandleSet | sim/zt_gnmi_simd.cpp:175-204 | only ADMIN writes; the updates are applied in order and each path is answered |
| GnmiProperties.ServerAnswersEveryPath | sim/zt_gnmi_simd.cpp:145-172 | for any list of paths: NOT_FOUND exactly when paths were asked for and none reads a leaf; otherwise each path's leaves stand in the body in request and tree order, and by the count nothing else does |
| Gnmi.Get | src/local_gnmi_sink.cpp:39-106 | the rows of denied requests, then every returned leaf screened again; a lost call, a status and an unparsable body are reported in that order |
| GnmiProperties.GetSucceedsExactlyWhen | src/local_gnmi_sink.cpp:64-69 | an answered GET fails exactly for the empty request and when something was sent and nothing matched; the number of rows |
| GnmiProperties.GetDeniesHiddenPaths | src/local_gnmi_sink.cpp:51-58 | the first rows deny the hidden paths asked for, in order |
| GnmiProperties.GetReportsEveryPath | src/local_gnmi_sink.cpp:88-97 | the rows after them report every leaf each other path reads, hidden leaves without value, in request and tree order |
| GnmiProperties.GetReportsTrouble | src/local_gnmi_sink.cpp:72-78 | a lost call is reported with its status and message, then a server status, then an unparsable body, with the denied rows kept |
| GnmiProperties.HiddenRowsCarryNoValue | src/local_gnmi_sink.cpp:80-97 | however the call went, a row carries the denial and no value exactly when its path is hidden |
| Gnmi.Set | src/local_gnmi_sink.cpp:108-138 | the tree after the request and the result, for refused, lost and garbled calls too; a call can be lost before or after the server has applied it |
| GnmiProperties.SetReports | src/local_gnmi_sink.cpp:125-137 | a SET succeeds exactly when answered and ADMIN, and then lists every rendered path in order; the status and message of every other outcome |
| Gnmi.FormatGet | src/gnmi_reply.cpp:55-67 | the reply text, never longer than one SMS |
| ReplyText.ReplyReadsBack | src/gnmi_reply.cpp:55-67 | a reply that fits and has no semicolon in its rows splits back into the rows |
| ReplyText.RowReadsBack | src/gnmi_reply.cpp:64 | a row's text gives back its path and its value, or its error and no value |
| ReplyText.ClampKeepsBeginning | src/gnmi_reply.cpp:10-14 | for every limit: a text that fits is kept, a longer one is cut to the limit, with three dots if there is room |
| ReplyText.LongReplyIsCut | src/gnmi_reply.cpp:10-14 | a longer reply is 160 characters: its beginning, then three dots |
| ReplyText.FailureIsNamed | src/gnmi_reply.cpp:48-56 | a failure is told by the server's message if there is one, else by its status |
| ReplyText.CanonicalStatusNames | src/gnmi_reply.cpp:16-37 | the names of the gRPC codes 1 to 8 |
| ReplyText.MoreStatusNames | src/gnmi_reply.cpp:16-37 | the names of the codes 9 to 16 |
| ReplyText.OtherStatusIsNumbered | src/gnmi_reply.cpp:39-41 | any other code is given by its number |
| ReplyText.DecimalReadsBack | src/gnmi_reply.cpp:41 | the decimal text of a number denotes that number |
| GnmiProperties.SecretsDoNotInterfere | src/local_gnmi_sink.cpp:80-105 | two trees that agree on all leaves whose rendered path is not hidden (the eleven words in any letter case, or the configured tokens) give the same result and reply text for every GET on every link |
| GnmiProperties.ReadYourWrites | src/local_gnmi_sink.cpp:108-138 | after an accepted SET, a GET of any list with a written path in it that is not hidden succeeds and reports the last value written to the leaf it renders to; asked for alone, just that |
| GnmiProperties.WritesTouchOnlyTheirLeaves | sim/zt_gnmi_simd.cpp:186-203 | a leaf no pair renders to is unchanged; a refused SET, or one that never arrives, changes nothing; one that arrives is applied in full even if its answer is lost |
| GnmiProperties.PutsSpec | sim/zt_gnmi_simd.cpp:195-203 | the tree after a list of updates: last value per rendered path, everything else as before |
| SmsTransport.Transport.DrainInbound | src/ds_sms_transport.cpp:87-103 | an incomplete or remembered message is dropped, any other is delivered and remembered |
| SmsTransport.NoLostWakeUp | src/ds_sms_transport.cpp:62-85 | a callback not yet followed by a read of the slot has a drain under way or a notification to come; at rest every callback, and every bump since the watch was placed, has been followed by a read |
| SmsTransport.ReadsExactlyWhenFlagged | src/ds_sms_transport.cpp:76-85 | the slot is read exactly when the reactor was dispatched after a callback had flagged since its last dispatch |
| SmsTransport.DeliveredExactlyWhen | src/ds_sms_transport.cpp:76-103 | over every interleaving, a stored message is delivered exactly when it is complete, a successful drain read follows it before the next one is stored, and it differs from the last message known |
| SmsTransport.DeliveredInOrder | src/ds_sms_transport.cpp:87-103 | every delivery is a stored message, and deliveries come in the order of storing, so no stored message is delivered twice |
| SmsTransport.RepeatedExactlyWhen | src/ds_sms_transport.cpp:92-98 | the same triple is delivered more than once exactly when it was stored more than once and two of its copies were read while another message was the last known |
| SmsTransport.MissedExactlyWhenUnread | src/ds_sms_transport.cpp:48-103 | the last message stored is missed, complete and not remembered, exactly when it is complete, was unknown before, and no read has succeeded since |
| SmsTransport.ReadExactlyWhenHeard | src/ds_sms_transport.cpp:62-85 | at rest, a drain has read an announced last message exactly when one of its announcements came after the watch was placed |
| SmsTransport.LastMissedExactlyWhen | src/ds_sms_transport.cpp:48-74 | at rest, while reads succeed, a complete unknown last message is missed exactly when the baseline was read before it was stored and every announcement of it came before the watch |
| SmsTransport.NoReplay | src/ds_sms_transport.cpp:92-102 | adjacent deliveries differ, the first differs from the baseline, all are complete |
| SmsTransport.DrainsComeSoon | src/ds_sms_transport.cpp:76-103 | left to themselves the two threads come to rest within a bounded number of steps |
| SmsTransport.StopsOnlyAtRest | src/ds_sms_transport.cpp:76-85 | they cannot stop with a callback, a notification or a drain outstanding |
| SmsTransport.MissedAtStartUp | src/ds_sms_transport.cpp:48-74 | a message announced between baseline and watch is left undelivered with nothing to wake the reactor |
| SmsTransport.MissedByOverwriting | src/ds_sms_transport.cpp:87-90 | a message stored and announced while watched is lost when another, complete or not, is stored before the drain |
| SmsTransport.DeliveredAgain | src/ds_sms_transport.cpp:92-98 | a run that delivers the same triple twice, with another in between |
| AtFramer.Modem.RunAt | src/at_modem.cpp:119-156 | lines, status and remainder are those of the whole text, however it was cut into reads, exactly when no complete line was buffered or a read arrives; and for information lines with blanks and echoes among them, then OK or an error code, each line ended by CR LF or LF, they are those lines, that verdict (the error line last) and the rest |
| AtFramer.TranscriptTaken | src/at_modem.cpp:144-153 | the same for the text at once |
| AtFramer.TranscriptPending | src/at_modem.cpp:144-156 | without a final result code: the information lines so far, not ok, and the incomplete line |
| AtFramer.FramedIsSplitting | src/at_modem.cpp:144-153 | that outcome is the one of splitting the text at newlines all at once |
| Command.Csv | src/gnmi_command.cpp:26-35 | the accumulator loop is splitting at commas |
| Command.ParseGnmi | src/gnmi_command.cpp:39-85 | the parsed command, with every error case |
| Command.ParsedExactlyWhen | src/gnmi_command.cpp:39-85 | what each message is taken for, by its keywords in any letter case, its number of tokens and its commas, and the text of each error |
| Command.ParsePrinted | src/gnmi_command.cpp:39-85 | a printed GET or SET parses back to the same xpaths or pairs in order, whatever the case of its keywords |
| Command.PrintParsed | src/gnmi_command.cpp:39-85 | every accepted message is spelled by printing what was parsed |
| Text.JoinOfSplit | src/gnmi_command.cpp:26-35 | joining the pieces with the separator gives the text back |
| Text.SplitOfJoin | src/gnmi_command.cpp:26-35 | splitting joined separator-free pieces gives the pieces back |

## Left out

- Interleaved execution on heap objects: the session, its threads, the registry's handlers, the fence, the reference counts and the SMS threads are modelled as transition systems on values; the classes beside them (`Session`, `Registry`, `Transport`) are proved one call at a time.
- Identity of connections inside one end is the stream id; `Tunnel.AddConnNeverOverwrites` is what justifies it, and `Descriptors` keeps ids and connections apart.
- A failed write breaks the session for good, and a frame that was refused is taken not to arrive.
- The stream id counter is unbounded; wrap-around after 2^64 opens is not modelled.
- gRPC, protobuf, libevent, ACE, sockets and the data store: FIFO logs, sticky write failure, nondeterministic system calls, and a message that survives serialisation unless the link is `Garbled`.
- `Descriptors` over-approximates control flow, so it says nothing about which fragment runs when.
- The path and value codecs (`gnmi_util`) are parameters; `GnmiProperties.ReadYourWrites` assumes they round-trip.
- The replace and delete lists of `handle_set`, its malformed-request branch, timestamps, logs and the GET role: the modelled client sends well-formed updates only.
- `format_set`: a single expression.
- The AT prompt mode, deadlines, `drain_sms` and the PDU codec.
- Keepalive period, retry delay, flow control, and the client's order of `Finish` and `Shutdown`.
- `Registry::WaitFor`, the echo demo, daemons, configuration, users, `Bridge`, `GnmiExecutor`, `DirectActionSink` and the command tokeniser.
