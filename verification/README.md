# rocm-ernic: data path, admin queue and DMA

A Dafny model of the emulated ionic RDMA device in rocm-ernic: the send queues and the table of requests
waiting for another node, the queue of messages from other nodes, several such nodes with a lossy network
between them, address translation and the copy loops, memory regions, the shared rings, the admin queue's ring
and resources, the DMA transfer loop and the log limit.

State that the device updates in place is a class whose methods are proved against functions on values
(`Datapath.Device`, `InboundQueue.Queue`, `Dma.Transfer`, `Regions.Table`, `Rings.Cq`, `AdminRing.Queue`,
`Resources.Admin`, `LogLimit.Limiter`). The results over whole runs are lemmas about those functions. What the
device finds outside its own state (guest memory, the mesh, the clock, the resource manager) is a parameter.

## How it is laid out

| files | about |
|---|---|
| `Arith`, `Wire`, `Turns` | powers of two, remainders; messages, statuses, constants; work done a turn at a time |
| `Inbound`, `InboundQueue` | messages from other nodes: receive threads and passes, interleaved |
| `Journal` | a log of what a device did, and when such a log is sound |
| `RecvRings`, `Host`, `Responder` | receive rings, delivery into a receive, and what other nodes' requests do |
| `WorkRequests`, `Serving` | what a WQE holds and does within the device; what the data path makes of a request |
| `SendQueue`, `SendQueueInv`, `Ledger`, `LedgerOps`, `Runs`, `Datapath` | send queues, pending requests, flush, timeouts, and their whole runs |
| `Quiet`, `Outcomes`, `Progress`, `Settling`, `Setups`, `Histories` | what each of those comes to, in terms of the WQE, the QP and the request alone: one turn, a doorbell or a retry, an answer or a deadline, a QP's setup, and the turns of a whole run |
| `Evolve`, `Mesh`, `MeshTokens`, `MeshTakes`, `MeshInv`, `MeshSteps`, `MeshRuns`, `Arrivals` | N nodes over a network that delays, reorders and loses |
| `Dma`, `Translate`, `Regions`, `Copying`, `Placement`, `Bouncing`, `CopyLoops` | DMA, page tables, memory regions, scatter/gather and bounced copies |
| `Rings` | completion rings and their guest, the send consumer |
| `AdminRing`, `Resources` | the admin queue's ring and what its commands create |
| `LogLimit` | the limit on guest-caused log lines |

## Where the code and its promises differ

- A buffer in one piece reports a run of 2^64 - 1 bytes (`src/ionic/ionic_datapath.c:274-281`), so "every byte
  of the run is where the run says" is false of the bytes past the top of the address space.
  `Translate.DirectRunPastTop` names one, and `Translate.RunIsItsBytes` says exactly which bytes it holds of.
  Nothing is moved there: `ernic_dma_range_ok()` refuses the transfer.
- The log limit's header says at most 10 lines in each 5000 ms. That holds of the windows that begin where an
  interval begins, whenever the calls come (`LogLimit.IntervalBound`). Of another window it holds if no interval
  crowds it (`LogLimit.QuietWindow`), and wherever one can, there are calls for which the window holds more
  (`LogLimit.BusyWindow`): up to 20, never more (`LogLimit.WindowBound`, `LogLimit.WindowBoundMet`).
- A receive doorbell's index has 16 bits. It brings the device's count to the guest's if and only if fewer than a
  ring's depth of receives were posted since the last doorbell and the index fits (`RecvRings.DoorbellCatchesUp`,
  and `RecvRings.CountsTrue` for whole runs). `RecvRings.DeepRingMiscounts` is a ring of 2^17 entries for which it
  does not.
- A WRITE_IMM is acknowledged with success even if its immediate is lost (`Responder.ImmediateLost`): it is
  delivered if and only if its QP exists and a receive can be taken there (`Responder.ImmediateDelivered`).
- A SEND is acknowledged with success even if its receive truncates it (`Responder.SendTruncated`): it lands whole
  if and only if the receive's list holds it, each byte of that can be reached and the mapping layer lets it
  (`Responder.SendLandsWhole`).
- A refused WRITE is meant to change nothing (`src/ionic/ionic_datapath.c:3749-3758`). A WRITE whose transfer fails
  part of the way is refused too, and has changed memory: `Responder.RefusedWriteLands` is one. Whatever its payload, a
  refused WRITE changes nothing if and only if it was refused for its length, its key or its range, or none of it could
  be moved (`Responder.RefusedWriteSpares`); otherwise just what went before is there (`Responder.RefusedWriteLeaves`).

## Model

| member | source | states |
|---|---|---|
| MeshRuns.ExecutedAtMostOnce | src/ionic/ionic_datapath.c:3910-4000 | In every run of N nodes, whatever the network delays, reorders or loses, no request is carried out twice, and every one that is was sent by its origin, as it was sent and to the node that carried it out |
| MeshRuns.OkMeansDone | src/ionic/ionic_datapath.c:3859-3889 | In every run a request completed with success was carried out with success at its responder, and for a READ or an atomic all the bytes asked for, as the responder read them, have landed |
| MeshRuns.OkLandsInPlace | src/ionic/ionic_datapath.c:3859-3889 | At the step of the run that completed a READ or an atomic with success, every byte its execution returned went, in order, to the places of the list it was sent with, each of which was there, and no other byte of memory changed |
| Arrivals.WriteArrives | src/ionic/ionic_datapath.c:3742-3792 | In every run a WRITE carried out with success at a node is that of a WRITE WQE which a QP of its sender, with that node for its peer, ran: it leaves, at the WQE's key and address, as many bytes as the WQE says of those its list named when it was run, and no other byte of that memory changes |
| Arrivals.SendArrives | src/ionic/ionic_datapath.c:1943-2084 | In every run a SEND that lands whole is that of a SEND WQE which its sender ran, for that QP of that node: it leaves in the receive's list all the bytes the WQE's list named then, or of a datagram its header and as much of the list as one takes |
| Arrivals.ReadArrives | src/ionic/ionic_datapath.c:3859-3889 | In every run a READ or an atomic completed with success is that of a WQE which its node ran, carried out as the WQE asks at its QP's peer; what came back, as much as the WQE asks for, went to the WQE's list, each byte of which was there, and changed no other |
| Arrivals.SentInTurn | src/ionic/ionic_datapath.c:2457-2655 | In every run of N nodes each request a node has sent was sent in a turn it took, and asks for what that turn's WQE does, with the bytes its list named then |
| MeshRuns.TakenBackNeverRuns | src/ionic/ionic_datapath.c:675-687 | A request that a flush or a timeout took back from the mesh is nowhere, at any later point of any run: not queued, in flight or held, and never carried out |
| MeshRuns.FlushTakesOwn | src/ionic/ionic_datapath.c:1637 | In every run a flush takes a queued message back if and only if it is a request its QP sent and the QP has not been registered anew since; what it takes back is in the journal as taken back |
| MeshRuns.NewRegistrationSpares | src/ionic/ionic_datapath.c:669-680 | In every run a flush of a QP registered anew leaves queued what the registration before it had queued |
| MeshRuns.RnrConsumesNothing | src/ionic/ionic_datapath.c:3700-3734 | In every run a SEND that finds no receive and may wait changes no receive ring, memory, journal, message or other node, and stays held in its place |
| MeshRuns.ReceivesBalance | src/ionic/ionic_datapath.c:3700-3792 | In every run the receives a node has taken for a request are the executions of it that say so, one at most in the whole mesh; an execution of a SEND took one if and only if it succeeded, and but for a WRITE_IMM no other did |
| MeshRuns.RingsCount | src/ionic/ionic_datapath.c:1878-1933 | In every run each ring's two counters are the receives posted to it and taken from it, and no more are taken than were posted |
| MeshRuns.AnyStep | src/ionic/ionic_datapath.c:3910-4000 | A run can go on with any step that can be taken: the theorems over runs leave none out |
| MeshRuns.NodeRuns | src/ionic/ionic_datapath.c:3910-4000 | In every run of N nodes each node's data path is what the commands the run has for it make of a fresh one, requests of its peers among them, so that all the results on a data path's runs hold of it |
| MeshSteps.NextInv | src/ionic/ionic_datapath.c:3645-3667 | Every step of every node and of the network keeps the invariant: each request number in one place at most, each message what its sender sent or a report of an execution, each receive taken accounted for |
| MeshTakes.NextTakes | src/ionic/ionic_datapath.c:1943-2084 | Every step keeps a node's journal and the executions in agreement on who took a receive for whom |
| Mesh.AttemptConsumesNothing | src/ionic/ionic_datapath.c:3721-3726 | What a SEND that will be put back tries leaves the device as it was |
| MeshInv.ReplyConfirms | src/ionic/ionic_datapath.c:3859-3889 | The reply that completes a request with success reports an execution of that very request, its data is as long as the request asked for, and lands as far as it goes in the request's own list |
| MeshInv.ResponseOk | src/ionic/ionic_datapath.c:3863-3888 | A completion with success comes only of a reply with success to a request still pending, whose data landed in full in the list it was sent with |
| MeshInv.RequestMail | src/ionic/ionic_datapath.c:3645-3667 | Carrying out a request queues a reply that reports it, or loses it, and leaves every other message true |
| MeshTokens.HandleTokens | src/ionic/ionic_datapath.c:4136-4184 | Handling a message moves its number from the inbound queue to what has been carried out, and makes no second one |
| Responder.SendLandsWhole | src/ionic/ionic_datapath.c:1943-2084 | A SEND carried out with success lands whole, and its receive completes with success, if and only if the receive's list holds it, each byte can be reached and the mapping layer lets it |
| Responder.SendTruncated | src/ionic/ionic_datapath.c:3700-3734 | The input for which success does not mean that: a SEND its receive has no room for |
| Responder.ImmediateDelivered | src/ionic/ionic_datapath.c:3784-3788 | A WRITE_IMM carried out with success delivers its immediate if and only if its QP exists and a receive can be taken there |
| Responder.ImmediateLost | src/ionic/ionic_datapath.c:3784-3788 | The input for which it does not |
| Responder.WriteMeans | src/ionic/ionic_datapath.c:3742-3792 | Exactly which WRITEs succeed; one that does puts its payload where it says and changes no other byte, and one stopped by its length, key or range changes nothing |
| Responder.RefusedWriteSpares | src/ionic/ionic_datapath.c:3742-3778 | A refused WRITE changes nothing, whatever it brings, if and only if its length, key or range stopped it or none of it could be moved |
| Responder.RefusedWriteLeaves | src/ionic/ionic_datapath.c:3769-3778 | A refused WRITE that was not stopped leaves the first of its bytes, as many as went, and changes no other |
| Responder.RefusedWriteLands | src/ionic/ionic_datapath.c:3769-3778 | The refused WRITE that changes memory |
| Responder.ReadMeans | src/ionic/ionic_datapath.c:3798-3829 | Exactly which READs succeed; one that does returns what every byte it names holds, and none changes anything |
| Responder.AtomicMeans | src/ionic/ionic_datapath.c:3835-3852 | Exactly which atomics succeed; one that does returns the eight bytes it found and changes no other: a compare-and-swap leaves its operand if they are the number it compares with and the same bytes if not, a fetch-and-add their sum modulo 2^64 |
| Responder.FailedAtomicSpares | src/ionic/ionic_datapath.c:2131-2151 | An atomic that fails changes nothing, whatever its operation, if and only if it could not read or none of its new bytes could be written; otherwise the first of them are there, as many as went, and no other byte changes |
| Responder.SwapMeans | src/ionic/ionic_datapath.c:2131-2151 | The same success of any eight bytes of one run |
| WorkRequests.RdmaMeans | src/ionic/ionic_datapath.c:3141-3198 | An RDMA within the device succeeds if and only if its key covers its range, its list is as long and each byte at both ends can be reached; if the ends do not overlap the one then holds what the other did and nothing else has changed, and one that fails says at which end |
| WorkRequests.LocalAtomicMeans | src/ionic/ionic_datapath.c:2157-2205 | An atomic within the device that succeeds returns the eight bytes it found to its own list, and leaves there what its WQE's operands make of them: the swap if they compare, the same bytes if not, or the sum modulo 2^64 |
| WorkRequests.AtomicExactly | src/ionic/ionic_datapath.c:2157-2205 | It succeeds if and only if its key covers its eight bytes and they and those of its result can be reached, and otherwise says at which end it failed |
| WorkRequests.RegMeans | src/ionic/ionic_datapath.c:3288-3312 | A REG_MR succeeds if and only if what it registers is accepted, and its key then reaches the region it names; after one that fails, and after a LOCAL_INV, the key reaches nothing |
| Responder.LeRoundTrip | src/ionic/ionic_datapath.c:2131-2151 | A number written as little-endian bytes reads back as itself if it has no more bytes than that |
| Responder.LeDigit | src/ionic/ionic_datapath.c:2131-2151 | A byte of memory is the digit of the number it holds that its place says, least significant first |
| Responder.BytesRoundTrip | src/ionic/ionic_datapath.c:2131-2151 | Memory that holds a number is the bytes of that number |
| Responder.RefusalStatus | src/ionic/ionic_datapath.c:3700-3852 | A SEND succeeds if and only if its QP exists and has a receive it can take; a request that fails is answered with an exhausted wait if it is a SEND whose QP exists, and an access error otherwise |
| Serving.ReplyVerdict | src/ionic/ionic_datapath.c:3645-3668 | A request takes its receive from its QP's own ring or the one that shares; its reply goes to the node and QP it came from, with its number, its status and its data |
| Responder.AnswerSized | src/ionic/ionic_datapath.c:3798-3852 | A request carried out with success returns as many bytes as it asked for, any other none |
| Responder.TakesAsItSays | src/ionic/ionic_datapath.c:3700-3792 | Which requests take a receive, and that its completion names the ring, the sender and how much landed |
| Responder.ExecuteRings | src/ionic/ionic_datapath.c:1878-1933 | A request leaves every receive ring as it was, but for one receive fewer in its own if it took one |
| Host.LandsWhole | src/ionic/ionic_datapath.c:1943-2084 | A message lands whole in a receive, as a byte-at-a-time scatter would put it, exactly if the list holds it and its bytes can be reached |
| Host.NoneTaken | src/ionic/ionic_datapath.c:1878-1933 | A delivery that finds no receive consumes nothing |
| Host.OneTaken | src/ionic/ionic_datapath.c:1878-1933 | A delivery takes a receive exactly when one is posted and can be read, and touches no other ring |
| Host.PutHolds | src/ionic/ionic_datapath.c:1224-1248 | Bytes put in different places are there to be read |
| Host.AllCounted | src/ionic/ionic_datapath.c:1198-1248 | All the bytes wanted are moved and counted exactly if every place is there and the mapping layer lets it |
| Evolve.DoEv | src/ionic/ionic_datapath.c:2457-2655 | Every send-side operation: a request enters the mesh's queue only when it is sent; what is queued or was taken back never outgrows what was sent, and only an answer completes a request with success |
| Evolve.TagSelects | src/ionic/ionic_datapath.c:669-687 | The two masks single out a registration's requests, and one request, by their 64-bit tags |
| Runs.NoLostWakeup | src/ionic/ionic_datapath.c:547-568 | After any operations the count of stalled queues is exact and all of them are valid, and a queue stopped at an unreadable WQE still awaits a completion |
| Progress.EarlyExitSkipsNone | src/ionic/ionic_datapath.c:4206-4210 | From wherever it is, the retry loop with its early exit comes to what serving every valid stalled QP in turn would |
| Progress.RetryProgress | src/ionic/ionic_datapath.c:4206-4210 | After a retry each queue that was stalled is what serving it makes of it, in the state the loop comes to it in: it has moved past the WQE it was stalled at unless that still has to wait or cannot be read, and has run every WQE there was or stopped at such a one; every other queue is as it was |
| Progress.DoorbellProgress | src/ionic/ionic_datapath.c:3535-3549 | After a doorbell a queue has run every WQE up to the index it was given, each once and in the order of the ring, and is not stopped; or it has stopped at a WQE that waits or cannot be read, having run every one before |
| Progress.TurnStops | src/ionic/ionic_datapath.c:3220-3527 | A queue stops at a WQE if and only if it cannot be read, its peer's owed answers or the mesh leave no room for it, the mesh wants it later, or it is an RC SEND that finds no receive and has waited less than five seconds |
| Histories.RequestsAskForTheirWqe | src/ionic/ionic_datapath.c:2457-2655 | In every run each request sent is what the WQE of one of the run's turns asks for: its op, key, address, length and operands, from that turn's QP to its peer, with the WQE's list for its answer and its bytes taken from that list then; or the datagram that WQE describes |
| Histories.CompletionsAreEarned | src/ionic/ionic_datapath.c:3220-3527 | In every run each completion the device gives a WQE itself is one of the turn that ran it, with just the status that WQE earns there |
| Histories.OwnSuccessIsDone | src/ionic/ionic_datapath.c:3220-3527 | In every run a WQE of a connected QP that the device itself completes with success was not for another node and has been done: a registration was accepted, an RDMA or an atomic could be carried out, an RC SEND that got as far as a QP's receives took one |
| Histories.TurnSetup | src/ionic/ionic_datapath.c:895-932 | The QP whose turn it is has the kind, ring, peer and shared receive ring it had when the command came |
| Outcomes.TurnVerdict | src/ionic/ionic_datapath.c:3220-3527 | Every turn: whether the device completes the WQE itself, with which of the statuses, by sequence number or not, and last of what it does; and that what it sends asks for what the WQE does |
| Outcomes.RemoteVerdict | src/ionic/ionic_datapath.c:3446-3478 | A WQE for another node fails with an access error if there is no pending entry, no such op, too long a payload or bytes that cannot be gathered, waits if the answers owed or the mesh leave no room, fails with an exhausted retry if the mesh cannot send it, and otherwise is queued, parked with its deadline and reply budget, and journalled |
| Outcomes.RefusedVerdict | src/ionic/ionic_datapath.c:3330-3420 | A WQE whose own fields or list are wrong completes at once with the error each earns |
| Outcomes.UnknownVerdict | src/ionic/ionic_datapath.c:3508-3512 | One whose op the device doesn't have completes with an operation error |
| Outcomes.Dispatched | src/ionic/ionic_datapath.c:3446-3512 | A WQE that nothing stops goes to the mesh if its QP's peer is another node, and otherwise is carried out within this process |
| Outcomes.RdmaVerdict | src/ionic/ionic_datapath.c:3493-3497 | An RDMA within the device completes with success if and only if it can be done, its bytes then being where they were to go, and otherwise with the error of the end that failed |
| Outcomes.AtomicVerdict | src/ionic/ionic_datapath.c:3499-3506 | So does an atomic |
| Outcomes.ImmediateVerdict | src/ionic/ionic_datapath.c:3199-3213 | A WRITE_IMM within the device that succeeds takes a receive of the QP it is for if there is one, and no other RDMA or atomic takes any |
| Outcomes.SendVerdict | src/ionic/ionic_datapath.c:2929-3135 | A SEND within the process that gets as far as a QP's receives takes one and succeeds; if there is none, an RC QP's waits, and fails with an exhausted retry after five seconds, and any other is lost; so is one that gets nowhere |
| Outcomes.SendLands | src/ionic/ionic_datapath.c:2002-2032 | Its receive completes with success if and only if its list holds all the bytes and each at both ends can be reached; if they do not overlap the one list then holds what the other did, and nothing else has changed |
| Outcomes.DatagramLands | src/ionic/ionic_datapath.c:3075-3091 | A datagram's receive gets the header and as much of the list as one takes, whole if and only if it holds them |
| Outcomes.DatagramVerdict | src/ionic/ionic_datapath.c:2979-3031 | A datagram to another node waits if there is no room for it; otherwise its WQE succeeds, and it is sent where its address handle says, or lost |
| Outcomes.RegVerdict | src/ionic/ionic_datapath.c:3288-3312 | A REG_MR or LOCAL_INV completes by itself; afterwards each key reaches just the bytes its registration puts where it puts them, and no key of an index whose registration failed reaches any |
| Outcomes.UnreadVerdict | src/ionic/ionic_datapath.c:3231-3266 | A WQE that cannot be read stops its queue; the guest is told, and the QP flushed, once none of its requests is outstanding |
| Settling.AnswerVerdict | src/ionic/ionic_datapath.c:3859-3889 | An answer ends the request it names with what the peer said, or with a local error if that was success and the data it brought cannot all be put in the request's list; the guest is told if the QP still exists and a completion was promised |
| Settling.StrayAnswer | src/ionic/ionic_datapath.c:3859-3866 | An answer to no pending request changes nothing |
| Settling.InTimeStays | src/ionic/ionic_datapath.c:4213-4227 | A request that is in time stays pending, unless its QP only waits to be flushed |
| Settling.LateEnds | src/ionic/ionic_datapath.c:4213-4227 | One that is too late ends once, with an exhausted retry, and what the mesh had not sent of it is gone from its queue |
| Settling.FlushVerdict | src/ionic/ionic_datapath.c:1608-1658 | A flush ends every request of its QP and no other's, takes back those the mesh has not sent, and leaves the send queue empty and not stopped |
| Setups.SetupFollows | src/ionic/ionic_datapath.c:573-932 | Whatever a data path does, a QP's kind, ring, peer and shared receive ring are what its administrator's last word on it says: wrong rings change nothing, unreadable ones end it, a new registration has no peer and no shared ring |
| Setups.RecvBellVerdict | src/ionic/ionic_datapath.c:4269-4345 | A receive doorbell that names a slot of a ring there is brings the ring's count there, and any other changes nothing |
| Setups.SrqVerdict | src/ionic/ionic_datapath.c:733-816 | A shared ring described wrongly is as it was, one that cannot be read is no more, any other is empty with the depth described |
| Runs.OneFate | src/ionic/ionic_datapath.c:3220-3549 | Every WQE a connected QP's send queue has moved past has exactly one fate: one completion, or one request parked for it |
| Runs.OneEnd | src/ionic/ionic_datapath.c:2351-2372 | In every run each request sent is still pending, without a completion, or has been retired once; then it has exactly one completion if one was promised and an answer or a timeout retired it, and none if it was dropped or none was promised |
| Runs.CompletionIsItsOwn | src/ionic/ionic_datapath.c:2351-2372 | In every run a request's completion goes to the QP that sent it, not registered anew since, with the sequence number it was sent with |
| Runs.MsnsGapless | src/ionic/ionic_datapath.c:2616-2628 | In every run the n-th message sequence number a registration gives out is n modulo 2^32, failed sends included, and they follow the order of the WQEs in the ring |
| Runs.BudgetHolds | src/ionic/ionic_datapath.c:2587-2593 | In every reachable state the reply bytes pending from any node stay within the budget |
| SendQueueInv.BudgetAdmitsFirst | src/ionic/ionic_datapath.c:2587-2593 | A node with nothing pending is never refused for the budget |
| Runs.PendingNamesItsQp | src/ionic/ionic_datapath.c:2295-2306 | Every pending request names a registered QP and carries the id of its present registration, which no other QP has |
| Runs.RetiredForGood | src/ionic/ionic_datapath.c:2284-2306 | After a request is retired, however it was, nothing lands for it and nothing completes it in the rest of any run |
| Runs.FlushedRunsNothing | src/ionic/ionic_datapath.c:1639-1647 | In every run, after a flush and until its next doorbell a QP's send queue runs, completes, sends and moves past nothing |
| Runs.RnrWaitsFromFirst | src/ionic/ionic_datapath.c:3095-3132 | After any run, an RC SEND that finds no receive is given up exactly when the retry time has passed since it first found none |
| Runs.ReceivesCounted | src/ionic/ionic_datapath.c:1878-1933 | After any run, peers' requests and WRITE_IMMs within the device among it, a ring's counters are the receives posted to it and taken from it since it was set up, and none is taken that was not posted |
| Runs.WqeTakesOne | src/ionic/ionic_datapath.c:1943-2084 | In every run a WQE, a SEND or a WRITE_IMM, takes one receive at most, and only if it is completed |
| Journal.NothingAfterRetired | src/ionic/ionic_datapath.c:2284-2306 | The same of any sound journal |
| Journal.CompletedAsPromised | src/ionic/ionic_datapath.c:2351-2372 | Of any sound journal: a retired request has the one completion it was promised unless it was dropped |
| Journal.MsnsInRingOrder | src/ionic/ionic_datapath.c:2616-2628 | Sequence numbers follow ring order |
| Journal.TagTellsRegistration | src/ionic/ionic_datapath.c:669-680 | The registration number a request carries is its QP's latest exactly if the QP sent it and has not been registered anew since |
| Journal.NothingAfterFlush | src/ionic/ionic_datapath.c:1639-1647 | A flushed queue does nothing until it is rung |
| Journal.LandsInItsList | src/ionic/ionic_datapath.c:3859-3889 | What lands for a request lands in the list it was sent with and is no more than it asked for |
| Journal.TakenWerePosted | src/ionic/ionic_datapath.c:1878-1933 | No receive is taken that was not posted |
| Journal.TookOnce | src/ionic/ionic_datapath.c:2929-3135 | A WQE takes one receive at most |
| SendQueueInv.DoInv | src/ionic/ionic_datapath.c:2338-2372 | Every operation keeps the stall count, the pending table's shape, the reply budget, indices within their rings and the unreadable-WQE rule |
| LedgerOps.DoJ | src/ionic/ionic_datapath.c:2351-2372 | Every operation keeps the journal sound and the device what it says: fates, request ends, sequence numbers, registrations, RNR waits and receive rings |
| SendQueueInv.ServiceKeeps | src/ionic/ionic_datapath.c:3535-3549 | What one turn of a send queue keeps, its whole service keeps |
| SendQueueInv.NoneOverdue | src/ionic/ionic_datapath.c:4213-4227 | Timing out leaves no request overdue and gains none |
| Datapath.Device.PendingAlloc | src/ionic/ionic_datapath.c:2242-2254 | Claims the first free entry under a new request number, or leaves all as it was |
| Datapath.Device.PendingFind | src/ionic/ionic_datapath.c:2256-2265 | Finds the entry of a request, if there is one |
| Datapath.Device.PendingReplyBytes | src/ionic/ionic_datapath.c:2271-2282 | Sums the reply bytes pending from a node |
| Datapath.Device.PendingCancelQp | src/ionic/ionic_datapath.c:2295-2306 | Drops a QP's requests and no other, and counts them |
| Datapath.Device.PendingCompletesQp | src/ionic/ionic_datapath.c:2312-2323 | Tells whether a QP has a completion still to come |
| Datapath.Device.SqStallClear | src/ionic/ionic_datapath.c:547-556 | Clears a queue's stall and counts it once |
| Datapath.Device.SqBusySet | src/ionic/ionic_datapath.c:562-568 | Stalls a queue for room and counts it once |
| Datapath.Device.FlushQp | src/ionic/ionic_datapath.c:1608-1658 | The whole of a flush, on a valid QP, and nothing on another |
| Datapath.Device.SqFaultFinish | src/ionic/ionic_datapath.c:2338-2348 | Completes an unreadable WQE and flushes once nothing is awaited |
| Datapath.Device.RegisterQp | src/ionic/ionic_datapath.c:573-662 | A registration, refused, failed or done |
| Datapath.Device.UnregisterQp | src/ionic/ionic_datapath.c:689-715 | A QP's end |
| Datapath.Device.RecvDoorbell | src/ionic/ionic_datapath.c:4269-4307 | A receive doorbell, for a QP's ring or a shared one |
| Datapath.Device.RegisterSrq | src/ionic/ionic_datapath.c:733-794 | A shared receive queue set up, or refused |
| Datapath.Device.UnregisterSrq | src/ionic/ionic_datapath.c:796-816 | Its end |
| Datapath.Device.TakeRecv | src/ionic/ionic_datapath.c:1878-1933 | Takes the next receive if one is posted and can be read, and otherwise leaves the ring as it was |
| Datapath.Device.ScatterData | src/ionic/ionic_datapath.c:1826-1849 | Scatters data into a list, as the byte-at-a-time copy says |
| Datapath.Device.WriteData | src/ionic/ionic_datapath.c:1224-1248 | Writes to a key and address, alike |
| Datapath.Device.ReadData | src/ionic/ionic_datapath.c:1198-1222 | Reads from a key and address, alike |
| Datapath.Device.GatherData | src/ionic/ionic_datapath.c:1802-1824 | Gathers a list's bytes, as memory holds them, and all of them if each can be reached and is mapped |
| Datapath.Device.CopyLists | src/ionic/ionic_datapath.c:2002-2032 | Copies from one list of the guest's to another, by the lockstep walk, and as many as the shorter has if each can be reached and is mapped |
| Datapath.Device.CopyFar | src/ionic/ionic_datapath.c:2094-2120 | Copies between a list and a piece of memory in one, by rdma_xfer()'s walk, alike |
| Datapath.Device.PendingComplete | src/ionic/ionic_datapath.c:2351-2372 | Retires one request, with its completion if its QP is there |
| Datapath.Device.WireResponse | src/ionic/ionic_datapath.c:3859-3889 | A reply: its data scattered into the list the request was sent with, and completed, or ignored |
| Datapath.Device.LandAnswer | src/ionic/ionic_datapath.c:3863-3884 | The scatter of a reply's data, and how much of it got there |
| Datapath.Device.CancelRequest | src/ionic/ionic_datapath.c:683-687 | Takes one request back from the mesh, if it is still queued |
| Datapath.Device.ExpirePending | src/ionic/ionic_datapath.c:4213-4227 | Times out every overdue request, taking each back first |
| Datapath.Device.RemotePost | src/ionic/ionic_datapath.c:2457-2655 | Gathers a request's payload, sends it and parks it, or leaves no trace but a used number |
| Datapath.Device.Admit | src/ionic/ionic_datapath.c:2560-2615 | The checks before a request is sent, in order, and what it gathers |
| Datapath.Device.CompleteSend | src/ionic/ionic_datapath.c:2829-2839 | A completion by index or by sequence number, by the QP's kind |
| Datapath.Device.SqSend | src/ionic/ionic_datapath.c:2929-3135 | A SEND: within the process, into the receive it takes, its RNR wait, or as a datagram to another node |
| Datapath.Device.SendToQp | src/ionic/ionic_datapath.c:3036-3135 | A SEND to a QP of this process: refused, gathered behind a header for a datagram QP, delivered, waiting, or given up |
| Datapath.Device.HandReceive | src/ionic/ionic_datapath.c:1943-2084 | The receive taken, its bytes scattered or copied list to list, and its completion |
| Datapath.Device.SendToNode | src/ionic/ionic_datapath.c:2979-3031 | A datagram to another node, its header in front, or dropped |
| Datapath.Device.SqRdma | src/ionic/ionic_datapath.c:3141-3198 | An RDMA within the device, checked before anything moves |
| Datapath.Device.SqImmediate | src/ionic/ionic_datapath.c:3199-3213 | The receive a WRITE_IMM within the device takes |
| Datapath.Device.SqAtomic | src/ionic/ionic_datapath.c:2157-2205 | An atomic within the device, and its result returned |
| Datapath.Device.SqReg | src/ionic/ionic_datapath.c:3290-3312 | A REG_MR or LOCAL_INV |
| Datapath.Device.ProcessSqWqe | src/ionic/ionic_datapath.c:3220-3527 | One WQE, dispatched to what it does to memory, regions, receives and the mesh: its fate, and whether the queue moves past it |
| Datapath.Device.SqService | src/ionic/ionic_datapath.c:3535-3549 | A send queue serviced up to its last doorbell or the first WQE it stops at |
| Datapath.Device.SqDoorbell | src/ionic/ionic_datapath.c:4376-4386 | A send doorbell |
| Datapath.Device.RetryStalled | src/ionic/ionic_datapath.c:4206-4210 | The retry of stalled queues, with its early exit |
| Datapath.Device.WireSend | src/ionic/ionic_datapath.c:3700-3734 | Another node's SEND, delivered or refused |
| Datapath.Device.WireWrite | src/ionic/ionic_datapath.c:3742-3792 | Another node's WRITE, checked before anything moves |
| Datapath.Device.WireImmediate | src/ionic/ionic_datapath.c:3784-3788 | The receive a WRITE_IMM takes |
| Datapath.Device.WireRead | src/ionic/ionic_datapath.c:3798-3829 | Another node's READ |
| Datapath.Device.WireAtomic | src/ionic/ionic_datapath.c:3835-3852 | Another node's atomic: read, computed and written in one run |
| Datapath.Device.ApplyEight | src/ionic/ionic_datapath.c:2131-2151 | The read, the operation and the write of eight bytes |
| Datapath.Device.HandleRequest | src/ionic/ionic_datapath.c:3910-4000 | Any request of another node, in place, as the responder's functions say |
| Inbound.RunConservesAndOrders | src/ionic/ionic_datapath.c:4081-4200 | With receive threads and passes interleaved in any way, the counts are exact and within their limits, and the requests for each QP, and the responses, are applied in the order they arrived |
| Inbound.ResponsesAppliedInPass | src/ionic/ionic_datapath.c:4015-4021 | A pass applies every response that had arrived when it began, in order |
| Inbound.GiveUpEmpties | src/ionic/ionic_datapath.c:4065-4079 | A pass that gives up defers nothing and ends the crowding |
| Inbound.DeferVerdict | src/ionic/ionic_datapath.c:4136-4184 | A message goes behind those already put back for its QP; otherwise a SEND that finds no receive is put back, with the time it was first tried, until that is five seconds ago or the pass gives up, and everything else is applied |
| Inbound.RecvVerdict | src/ionic/ionic_datapath.c:3584-3643 | A message is taken if it is well formed, there is memory and there is room; with no room it stays with the mesh, unless the main thread has not looked for two seconds, when it is lost |
| Inbound.CrowdVerdict | src/ionic/ionic_datapath.c:4065-4122 | A pass gives up once the queue has been crowded for half a second; it is crowded after a pass if and only if a refused message does not fit beside what was put back, from the first pass of which that was so |
| Inbound.RecvInv | src/ionic/ionic_datapath.c:3584-3643 | A receive thread's message, taken, dropped or refused, keeps the queue's invariant |
| Inbound.HandleInv | src/ionic/ionic_datapath.c:4136-4184 | So does each turn of a pass |
| Inbound.BeginInv | src/ionic/ionic_datapath.c:4095-4122 | So does taking the list |
| Inbound.EndInv | src/ionic/ionic_datapath.c:4186-4200 | So does putting the deferred messages back ahead of new ones |
| InboundQueue.Queue.MeshRecv | src/ionic/ionic_datapath.c:3584-3643 | The receive step, in place |
| InboundQueue.Queue.NoteCrowding | src/ionic/ionic_datapath.c:4065-4079 | The crowding note, in place |
| InboundQueue.Queue.IsBlocked | src/ionic/ionic_datapath.c:4141-4149 | Whether a deferred message is for the same QP |
| InboundQueue.Queue.Poll | src/ionic/ionic_datapath.c:4081-4200 | A whole pass, in place, from one locked region to the other, with whatever the receive threads bring before, between and after its turns |
| InboundQueue.Queue.Receive | src/ionic/ionic_datapath.c:3584-3643 | The receive threads' part, a letter at a time |
| Translate.BufGpa | src/ionic/ionic_datapath.c:267-312 | The loop over adjacent pages finds the run |
| Translate.RunIsItsBytes | src/ionic/ionic_datapath.c:267-312 | Byte i of a run is at the run's address plus i, modulo 2^64: of a page table always, of a buffer in one piece exactly below 2^64 |
| Translate.DirectRunPastTop | src/ionic/ionic_datapath.c:274-281 | The input for which it is false |
| Translate.NoRunNoByte | src/ionic/ionic_datapath.c:267-312 | There is no run exactly where there is no byte |
| Copying.SgeRunIsItsBytes | src/ionic/ionic_datapath.c:1118-1149 | Every byte of the run a key and address resolve to lies within the region and is where the run says |
| Copying.CoversExactly | src/ionic/ionic_datapath.c:1098-1111 | A key covers a range exactly when every byte of it is in the key's region |
| Copying.RunCopy | src/ionic/ionic_datapath.c:1198-1248 | A run moved at once is its bytes moved one at a time, even where bytes alias |
| Copying.LinearTwice | src/ionic/ionic_datapath.c:1155-1191 | For memory that doesn't overlap, copying d bytes and then k more copies d + k |
| Copying.LinearIsGatherScatter | src/ionic/ionic_datapath.c:1802-1849 | A lockstep copy is gathering into a linear buffer and scattering it |
| CopyLoops.SgeGpa | src/ionic/ionic_datapath.c:1118-1149 | The resolution of a key and address |
| CopyLoops.SgeHost | src/ionic/ionic_datapath.c:1198-1248 | Both host copy loops move a prefix, as a byte-at-a-time copy would, and all of it if every byte is reachable and mapped |
| CopyLoops.WalkList | src/ionic/ionic_datapath.c:1802-1849 | Gather and scatter move the list's bytes in order, as many as both sides hold |
| CopyLoops.CopySge | src/ionic/ionic_datapath.c:1155-1191 | The bounced copy moves a prefix, and memory is then exactly what a turn-by-turn bounce leaves, overlapping or not; all of it if every byte is reachable and mapped |
| CopyLoops.Lockstep | src/ionic/ionic_datapath.c:2002-2032 | The walk over two lists ends, empty entries included, sends byte k to byte k, copies exactly as many as the shorter has, and leaves memory exactly as its bounced turns do, overlapping or not |
| CopyLoops.RdmaXfer | src/ionic/ionic_datapath.c:2094-2120 | The walk between a list and a piece of memory in one, either way, leaves memory exactly as the lockstep walk over the two does, overlapping or not |
| CopyLoops.WalkedApart | src/ionic/ionic_datapath.c:2002-2032 | For lists that do not overlap that is the byte-at-a-time copy |
| Bouncing.BouncedApart | src/ionic/ionic_datapath.c:1155-1191 | For ranges that do not overlap the bounced copy is the byte-at-a-time copy |
| Regions.KeyFollowsHistory | src/ionic/ionic_datapath.c:939-1067 | After any operations, failed ones included, each key reaches just what its own history says |
| Placement.BytesFollowHistory | src/ionic/ionic_datapath.c:202-261 | After any operations each key reaches just the bytes of the last registration under it that was accepted, if nothing since took that away: in one piece from the address it gave, or in the page of its table that the distance from the first page's start falls in |
| Placement.RegisterPlaces | src/ionic/ionic_datapath.c:202-261 | After a registration that is accepted the key reaches each byte of its range where the descriptor and the table put it, and no other; after one that is not, no key of its index reaches anything |
| Regions.AcceptsExactly | src/ionic/ionic_datapath.c:952-1013 | Exactly which registrations are accepted: the key has a slot, the range a byte and an end within the address space, the pages a size of at most 2^30, and there are as few of them as the range needs, all read |
| Regions.RunOk | src/ionic/ionic_datapath.c:952-1013 | Every live region is in its index's slot, within the address space, with a well-formed page table |
| Regions.RegisterRebinds | src/ionic/ionic_datapath.c:952-1013 | A registration kills every earlier key of its index, a failed one leaves none, neither touches another index |
| Regions.InvalidateOnlyOwn | src/ionic/ionic_datapath.c:1035-1042 | LOCAL_INV of a stale key changes nothing |
| Regions.UnregisterClears | src/ionic/ionic_datapath.c:1021-1028 | Unregistering any key of an index leaves none live |
| Regions.OneKeyLive | src/ionic/ionic_datapath.h:285-294 | At most one of an index's 256 keys is live |
| Regions.BufInitOk | src/ionic/ionic_datapath.c:202-261 | A buffer that is accepted is well formed |
| Regions.OffsetKept | src/ionic/ionic_datapath.c:259 | A byte of a paged buffer is as far into its page as its virtual address |
| Regions.Table.MrFind | src/ionic/ionic_datapath.c:939-950 | Looks a key up in the map |
| Regions.Table.RegisterMr | src/ionic/ionic_datapath.c:952-1013 | Registers in place, and says so if and only if the registration is one that is accepted, when its key is live |
| Regions.Table.UnregisterMr | src/ionic/ionic_datapath.c:1021-1028 | Unregisters in place |
| Regions.Table.LocalInvalidate | src/ionic/ionic_datapath.c:1035-1042 | Invalidates in place |
| Rings.ReadsTheLog | src/ionic/ionic_datapath.c:1402-1426 | A guest toggling its own colour reads every completion once and in order if it is never lapped, whatever writes fail, across the 32-bit wrap |
| Rings.PostOk | src/ionic/ionic_adminq.c:596-622 | The k-th completion goes to slot k modulo the depth with the colour of k / depth |
| Rings.SeesExactly | src/ionic/ionic_datapath.c:1402-1426 | The guest sees a completion exactly when there is one it hasn't read |
| Rings.Cq.PostCqe | src/ionic/ionic_datapath.c:1402-1426 | A completion written, or spoiled, in place |
| Rings.SlotsInOrder | src/ionic/ionic_datapath.c:3541-3548 | WQEs are taken in ring order across the counter's wrap |
| RecvRings.DoorbellCatchesUp | src/ionic/ionic_datapath.c:4269-4276 | A receive doorbell brings the device's count to the guest's if and only if fewer than a ring's depth were posted since the last and the index fits its 16 bits |
| RecvRings.DeepRingMiscounts | src/ionic/ionic_datapath.c:4269-4276 | The ring and index for which it does not |
| RecvRings.CountsTrue | src/ionic/ionic_datapath.c:4287-4307 | In every run of doorbells, stray indices among them, the count stays the guest's modulo 2^32 if and only if each doorbell meets that condition |
| AdminRing.EachCommandOnce | src/ionic/ionic_adminq.c:2311-2402 | In every run every stride is gone past once and in order, never past the producer, each command is given the strides its guest wrote, one is refused only if it says it is too long or runs past a doorbell, and then just that far, and one that can't be read is left to be retried |
| AdminRing.EveryCommandRuns | src/ionic/ionic_adminq.c:2311-2402 | In every run of a guest that writes whole commands, wherever they fall in the ring and whatever reads fail, the k-th thing the device does is to run the k-th command with its bytes, and none is refused |
| AdminRing.PollTiles | src/ionic/ionic_adminq.c:2335-2400 | One poll accounts for consecutive strides, each command run as written or refused for cause and for as far as that says, and for all of them if all can be read |
| AdminRing.Queue.UpdateProd | src/ionic/ionic_adminq.c:471-481 | The producer index stands for a count less than a lap ahead |
| AdminRing.Queue.ReadTail | src/ionic/ionic_adminq.c:2285-2309 | A command's strides are those of consecutive slots, wrapping at the end |
| AdminRing.Queue.Poll | src/ionic/ionic_adminq.c:2311-2402 | A poll of one queue, in place; it ends |
| Resources.RoomForFreshId | src/ionic/ionic_adminq.c:123-139 | A map as large as its id range has room for any id in range not in use |
| Resources.AddOk | src/ionic/ionic_adminq.c:776-777 | A new entry keeps ids and handles unique, and the live handles those mapped |
| Resources.RemoveOk | src/ionic/ionic_adminq.c:2203-2208 | What is given back was live, and the rest still are exactly those mapped |
| Resources.AddMeans | src/ionic/ionic_adminq.c:776-777 | A new id names its handle, and every other what it did |
| Resources.RemoveMeans | src/ionic/ionic_adminq.c:2203-2208 | An id given back names nothing, and every other what it did |
| Resources.AddRemove | src/ionic/ionic_adminq.c:2203-2208 | What is created and destroyed leaves its table as it was |
| Resources.Admin.CreateCq | src/ionic/ionic_adminq.c:678-783 | CREATE_CQ: its status in every case, no full map, and the table as it was unless it succeeds |
| Resources.Admin.CreateQp | src/ionic/ionic_adminq.c:1180-1357 | CREATE_QP, alike, the shared protection domain aside |
| Resources.Admin.CreateSrq | src/ionic/ionic_adminq.c:893-1047 | CREATE_SRQ, alike, undone wherever it fails |
| Resources.Admin.CreateMr | src/ionic/ionic_adminq.c:1642-1759 | CREATE_MR, alike |
| Resources.Admin.GetPd | src/ionic/ionic_adminq.c:108-121 | The one protection domain, made when first needed |
| Resources.Admin.AllocSrq | src/ionic/ionic_adminq.c:163-180 | An SRQ's id is its slot's |
| Resources.Admin.DropSrq | src/ionic/ionic_adminq.c:852-858 | An SRQ is given back once, and unmapped |
| Resources.Admin.DestroyCq | src/ionic/ionic_adminq.c:2189-2209 | DESTROY_CQ gives back a live handle once, or nothing |
| Resources.Admin.DestroyQp | src/ionic/ionic_adminq.c:2211-2233 | DESTROY_QP, alike |
| Resources.Admin.DestroySrq | src/ionic/ionic_adminq.c:1146-1178 | DESTROY_SRQ, alike |
| Resources.Admin.DestroyMr | src/ionic/ionic_adminq.c:2158-2187 | DESTROY_MR, under any key of its index |
| Resources.Admin.ReleaseAll | src/ionic/ionic_adminq.c:359-399 | Nothing is left live or mapped |
| Dma.Transfer.Xfer | src/ernic_dma.c:120-170 | The range exactly, in order, or a prefix of it and an error; nothing for a range that wraps; all of it if the mapping layer gives it in any pieces |
| Dma.Transfer.XferPieces | src/ernic_dma.c:128-170 | The splitting loop ends, with at most 64 pieces waiting |
| Dma.Transfer.XferPiece | src/ernic_dma.c:69-114 | One piece through one list of segments |
| Dma.SplitPieces | src/ernic_dma.c:159-163 | A piece that is halved leaves room on the stack, and done, piece and pending still make up the length |
| Dma.NextPiece | src/ernic_dma.c:164-168 | So does taking the next |
| Dma.FitsIsCeil | src/ernic_dma.c:124-131 | The bound on a pending piece is len / 2^(i+1), rounded up |
| Dma.WroteAt | src/ernic_dma.c:95-107 | What a write leaves at each address |
| Dma.ReadAt | src/ernic_dma.c:95-107 | What a read leaves at each place of the buffer |
| LogLimit.Limiter.Ask | src/ernic_log.c:196-214 | One call, in place |
| LogLimit.NothingLost | src/ernic_log.c:196-214 | Calls are lines let through, reported as held back, or still held |
| LogLimit.IntervalBound | src/ernic_log.h:60-72 | On a clock that never goes back the window that begins where an interval begins holds at most the burst, whenever the calls come |
| LogLimit.QuietWindow | src/ernic_log.c:196-214 | So does any window that no interval crowds |
| LogLimit.BusyWindow | src/ernic_log.c:196-214 | Wherever an interval can crowd a window there are calls for which it does and the window holds more |
| LogLimit.WindowBound | src/ernic_log.c:196-214 | On a clock that never goes back a window of an interval's length holds at most twice the burst |
| LogLimit.WindowBoundMet | src/ernic_log.h:74-75 | The run that reaches it |

## Left out

- The wire header's, WQEs', CQEs' and commands' byte layouts, and the values of immediates: messages and commands are datatypes.
- Request and registration ids are taken not to wrap at 2^32; a device would have to send that many requests.
- pending_find() looks a reply up by request number alone; the nodes of the model report only what they carried out, so a reply from the wrong node does not arise.
- Locks and threads: each region under rx_lock is one step, and so is each message between them.
- Connections of the mesh: a message may be lost while queued or in flight, and is never repeated; routing through a manager is not modelled.
- What WQEs and receives in guest memory hold, and how far the mapping layer lets bytes get, are parameters.
- A guest that writes to memory while an operation of the device is under way: it writes between operations.
- Dma.Transfer.Xfer: host buffers are sequences, not arrays, and the stack of pieces is a sequence whose length is bounded.
- Datapath.Device.SqSend: whether a target in this process takes a SEND, the node a datagram's address handle leads to, whether its Q_Key is the destination's and the bytes of its routing header are parameters.
- Datapath.Device.ProcessSqWqe: a WQE is given parsed, with what is wrong with its own fields and what a REG_MR's page table reads as; programs that inspect it first are not modelled.
- Resources.Admin.CreateQp: MODIFY, QUERY and statistics commands, which hold no resources, are not modelled.
- NVMe-oF, S3 and P4 targets, statistics and logging text.
