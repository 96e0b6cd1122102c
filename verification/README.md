# A verified model of the wanbond transport

wanbond bonds several uplinks between an edge and a concentrator into one tunnel. This project models the
parts of it whose correctness is hard to see from the code, and proves what they are for:

- **the bonding transport** (`internal/bond`): one object that is a sender (lanes, transmissions, bytes in
  flight, bounded repair) and a receiver (receipt windows, batched acknowledgements), alone over every run and
  in pairs over a network that loses, repeats and reorders frames;
- **its scheduling and measurement**: the fair queue, the pacing clock, the choice of a lane, the capacity
  reservation, the loss ledger and the sliding windows;
- **path membership and source demultiplexing** of the bind (`internal/bind`);
- **hub failover with re-resolution** of the device (`internal/device`);
- **the wire**: frame codec and transport byte formats (`internal/frame`, `internal/bond/wire.go`).

Run `dafny verify dfyconfig.toml` to check all of it.

## How it is built

Code that changes state in place is a class or a method with loops, proved equal to a function on values; the
laws are lemmas about those functions and the runs they make.

| files | content |
|---|---|
| `Words`, `ReceiptWindow` | 64-bit words, and the 8192-bit shifting window as an array of them that refines a set |
| `Basics`, `Packets`, `FairQueue`, `FlowRing` | datagrams; the fair queue as a rotation of flows; the linked ring and flow map that refine it |
| `TransportState`, `TransportSteps` | the transport's record, its steps as functions, and the sixteen operations a run is made of |
| `LaneLaws`, `TransportLaws`, `TransportRuns`, `PollLaws`, `AdoptionLaws` | the invariant every operation keeps; conservation, bounded repair; what a poll leaves done; what is recorded between two adoptions |
| `TransportEffects`, `AckEffects` | what each operation changes and does not change; what an acknowledgement says and confirms, both ways; delivery numbers over a run |
| `DropSchedules`, `Policies`, `Duties` | the real-time backlog rule and the controlled-delay schedule; the decisions of the lane control and the runs they steer; what a poll owes in a state |
| `LaneLoops`, `Transport` | the transport as an object; loops over maps are proved for every order of visit |
| `AckLaws`, `Network`, `NetworkLaws`, `NetworkSteps`, `NetworkReceive`, `NetworkTheorems`, `NetworkHistory`, `NetworkDelivery`, `UsedLanes`, `UsedLaneRun` | any number of transports, their channels, and the laws of whole runs |
| `Reservation`, `Scheduling`, `PacedRuns` | `reserve`, `allowed`, the pacing clock, `chooseLane`, bytes in flight over a run; the clock along runs of the transport |
| `LossLedger`, `SlidingWindow`, `SustainedDelivery` | loss from byte counts, five rotating buckets, delivery kept up over a span |
| `Membership`, `MembershipEffects`, `Multipath`, `Demux` | configured, bound and deferred paths, and what each operation does to them; the source table |
| `Failover`, `FailoverLaws`, `ExhaustionLaws`, `HubFailover` | the endpoint list, its laws over runs, lists that change during an outage, the controller |
| `Bytes`, `Frames`, `Wire`, `TransportWire` | numbers and keystreams in bytes, outer frames, transport formats, the frames of `TransportState` as bytes |

Conventions and environment:

- Transport times are natural nanoseconds, 0 being the zero time. Rates, service times and deficits are reals.
  Counters are unbounded.
- The lane control's decisions (which lane, which timeout, which interval, whether to send a copy) enter the
  transport as arbitrary functions of its state, given for each poll anew, so its laws hold for every policy.
  `Scheduling` and `Reservation` model the policy that chooses lanes. When a waiting datagram gives way is
  modelled exactly, state included (`DropSchedules`).
- In the network every frame ever sent on a channel may be delivered any number of times, in any order, or
  never. Frames are authenticated, so nothing else is delivered.
- `SetRemote` may be called with any epoch. Called without a challenge proof (`adopted` false) it relies on its
  own guards alone. Of calls with a proof the network laws assume `Network.Proven`: the epoch was not held
  before. That is an assumption on the reflector, which keeps one challenge for each path and is not modelled;
  `TransportRuns.ReturnRestsOnTheProof` shows that `SetRemote` itself does not ensure it.
  `AdoptionLaws.OncePerAdoption` needs no such assumption.
- The keystream and the tag of a frame are arbitrary functions of the shared key; a tag is 16 bytes long.
- Sockets, clocks, resolvers, random nonces and liveness are inputs.

## Model

| member | source | states |
|---|---|---|
| `ReceiptWindows.WindowIsTheRecentSet` | internal/bond/bond.go:1366-1396 | after any run of marks the window records exactly the numbers offered that are less than 8192 behind the highest |
| `ReceiptWindows.AcceptedAtMostOnce` | internal/bond/bond.go:1366-1396 | no run of marks accepts a number twice, and only offered numbers are accepted |
| `ReceiptWindows.RefusedIffSeenOrTooOld` | internal/bond/bond.go:1366-1396 | after any run a number is refused exactly when it was offered before or is 8192 or more behind |
| `ReceiptWindows.ShiftedBit` | internal/bond/bond.go:1372-1382 | a bit of the word-wise shifted mask is the bit that many places lower in the original, across word boundaries |
| `ReceiptWindows.ReceiptWindow.Shift` | internal/bond/bond.go:1372-1382 | the in-place loop from the top word down moves every recorded number further from the highest by the same distance |
| `ReceiptWindows.ReceiptWindow.Mark` | internal/bond/bond.go:1366-1396 | the in-place word array becomes the set window after the mark, and the result says whether the number was new |
| `ReceiptWindows.ReceiptWindow.Oldest` | internal/bond/bond.go:1398-1405 | the result is the lowest number on record, 0 exactly when there is none |
| `ReceiptWindows.ReceiptWindow.Bitmap` | internal/bond/bond.go:1407-1416 | bit d of the four words says whether the number d below the given top is on record |
| `ReceiptWindows.ReceiptWindow.ForgetThrough` | internal/bond/bond.go:1418-1428 | every number up to the given one leaves the record and no other does; the highest stays |
| `FairQueues.PushCount` | internal/bond/queue.go:115-145 | a push adds one datagram unless it coalesces, keeps the order of turns and puts a new flow last |
| `FairQueues.PushLaw` | internal/bond/queue.go:115-145 | a push changes what waits in its own flow, replacing at most the last datagram, and in no other |
| `FairQueues.PopLaw` | internal/bond/queue.go:162-176 | a pop takes the oldest datagram of the flow whose turn it is and leaves every other flow alone |
| `FairQueues.TurnsInOrder` | internal/bond/queue.go:109-176 | whatever is pushed meanwhile, the next turns go to the backlogged flows in rotation order, one each |
| `FairQueues.EqualTurns` | internal/bond/queue.go:109-176 | between two turns of a flow that stays backlogged every other backlogged flow gets exactly one, over all runs of pushes and pops |
| `FairQueues.ThinnedEnds` | internal/bond/queue.go:115-153 | coalescing never leaves out the first datagram or the last |
| `FairQueues.EachFlowIsThinned` | internal/bond/queue.go:109-176 | over every run, what was popped of a flow followed by what waits is what was pushed, less datagrams superseded by the one pushed next |
| `FairQueues.NeverThreeAdvancing` | internal/bond/queue.go:131-141 | coalescing is complete: in no state of any run do three datagrams in a row wait in a flow, each superseding the one before |
| `TransportEffects.SupersedesIff` | internal/bond/queue.go:147-153 | an acknowledgement supersedes another exactly if both are plain and say the same, its number is the other one moved on by less than half of the 32-bit range, past its end too, and its timestamps are moved on so or not at all |
| `FlowRings.FairPacketQueue.Push` | internal/bond/queue.go:115-145 | the linked ring and flow map after a push are the rotation after a push; the result says whether it coalesced |
| `FlowRings.FairPacketQueue.Pop` | internal/bond/queue.go:162-176 | the linked ring after a pop is the rotation after a pop, still circular and indexed by the map |
| `FlowRings.FairPacketQueue.Peek` | internal/bond/queue.go:155-160 | the datagram whose turn it is, none exactly when the queue is empty |
| `Packets.Ahead` | internal/bond/queue.go:147-153 | the signed 32-bit distance of two serial numbers |
| `LaneLaws.SumsOrdered` | internal/bond/bond.go:557-562 | each class's bytes in flight are part of the lane's, and those of what is outstanding |
| `LaneLaws.BeginKeeps` | internal/bond/bond.go:809-816 | a new transmission keeps the lane's byte balance |
| `LaneLaws.ReleaseBalances` | internal/bond/bond.go:557-562 | returning the bytes of transmissions balances the lane when those stop counting as in flight, by removal or by mark |
| `LaneLaws.RemoveKeeps` | internal/bond/bond.go:604-623 | dropping transmissions keeps the balance, also when part of what is dropped counts as acknowledged |
| `LaneLaws.TimeOutKeeps` | internal/bond/bond.go:884-901 | the timeout sweep keeps the balance |
| `LaneLaws.SettleKeeps` | internal/bond/bond.go:1222-1243 | settling acknowledged transmissions keeps the balance |
| `TransportLaws.StepKeeps` | internal/bond/bond.go:416-1243 | each of the sixteen operations keeps the whole invariant, whatever the lane control decides |
| `TransportRuns.RunKeeps` | internal/bond/bond.go:405-1243 | every run keeps the invariant |
| `TransportRuns.InFlightConservation` | internal/bond/bond.go:557-562 | after every run a lane's bytes in flight are the bytes of its unreleased transmissions, in total and by class, non-negative, and acknowledged plus outstanding bytes never exceed those sent |
| `TransportRuns.DatagramConservation` | internal/bond/bond.go:516-554 | after every run: offered = dropped + coalesced + queued + first transmissions; first transmissions = acknowledged + expired + pending; pending is the unacknowledged part of the pending order; at most 8192 outstanding, at most 7168 of them bulk |
| `TransportRuns.SmallRefusedOnlyBehindSmall` | internal/bond/bond.go:524-539 | after every run, `Enqueue` refuses a small datagram only while at least 1024 small ones are outstanding |
| `TransportRuns.BoundedRepair` | internal/bond/bond.go:767-833 | as long as no new remote is accepted, whichever are offered and refused, no datagram is transmitted more than four times, nor later than 250 ms after its first transmission (bulk) or its enqueueing (small) |
| `TransportRuns.NoRepairAfterAck` | internal/bond/bond.go:921-925 | as long as no new remote is accepted, no datagram is transmitted after it is acknowledged |
| `TransportRuns.TransmissionsCounted` | internal/bond/bond.go:823-833 | as long as no new remote is accepted, the attempts of a datagram count its transmissions over the run, and its content and deadline never change |
| `TransportEffects.TransmissionRecorded` | internal/bond/bond.go:807-833 | a transmission takes the lane's next number and is remembered there with its datagram, time, bytes and running total, and with the datagram as its last; nothing else changes, and the frame says the same |
| `TransportEffects.PingRecorded` | internal/bond/bond.go:902-917 | a ping is such a transmission without a datagram |
| `TransportEffects.TimedOutExactly` | internal/bond/bond.go:884-901 | the timeout sweep forgets exactly what was sent two seconds ago or earlier, and releases exactly what was sent a timeout ago or earlier |
| `TransportEffects.RetirementIs` | internal/bond/bond.go:921-932 | retiring a datagram takes exactly it off the pending order and counts it as expired exactly if it was not acknowledged |
| `TransportEffects.DeliveryNumbersConsecutive` | internal/bond/bond.go:795-808 | after every run the delivery numbers of small traffic, and those of bulk, begin at one, leave none out and rise with the datagram numbers |
| `TransportRuns.ReturnRestsOnTheProof` | internal/bond/bond.go:414-432 | after a change of boot `SetRemote` accepts the earlier epoch again exactly if it comes with the proof, and starts with empty receipts |
| `AdoptionLaws.StepRecords` | internal/bond/bond.go:1003-1097 | an operation that adopts no remote marks a number as received exactly when it delivers it, and a revision on a lane exactly when it accepts that acknowledgement |
| `AdoptionLaws.OncePerAdoption` | internal/bond/bond.go:1003-1097 | over every run, for whatever frames arrive and whichever epochs are adopted or adopted again, no number is delivered twice and no acknowledgement revision accepted twice on a lane between two adoptions, and the windows are exactly those of what was recorded |
| `PollLaws.PollKeeps` | internal/bond/bond.go:840-958 | no later move of a poll undoes what an earlier part of it finished |
| `PollLaws.MovesKeepHead` | internal/bond/schedule.go:375-433 | moves that take from other classes leave the head of a queue |
| `DropSchedules.StaleIff` | internal/bond/schedule.go:360-382 | over any run of looks at the real-time queue, a head gives way exactly when every look since some earlier one, 100 ms or more ago, found a head late by more than 20 ms; an empty queue or a timely head starts the count again |
| `DropSchedules.Spacing` | internal/bond/queue.go:82-84 | the largest whole number of nanoseconds within the interval over the square root of the count |
| `DropSchedules.EpisodeSpaced` | internal/bond/queue.go:48-84 | over any run, no datagram of a drop episode is discarded before the spacings of all those ahead of it have passed since the first, the count grows by one each time, and the next is due when all have passed |
| `DropSchedules.DropsIff` | internal/bond/queue.go:35-80 | over any run a datagram is discarded exactly when the queue keeps another one, has stood above its target for a whole interval, and any episode's spacings have passed |
| `DropSchedules.QueueAge` | internal/bond/bond.go:982-989 | a bulk datagram may wait a quarter of a second to a second, and a target and an interval of the schedule unless that is more than a second |
| `Policies.DropsDroppable` | internal/bond/schedule.go:375-433 | a head that is dropped is past its deadline, or late by the target of its class; a bulk one only if no up lane is in discovery, another waits behind it, and a lane could take it |
| `LaneLoops.TimeOutLane` | internal/bond/bond.go:884-901 | the sweep over the attempts map, in any order, releases exactly the overdue transmissions and forgets exactly those past two seconds |
| `LaneLoops.SweepLane` | internal/bond/bond.go:1127-1213 | the acknowledgement's sweep over the map, in any order, confirms exactly what the lane bitmap reports and drops only what it has moved past |
| `LaneLoops.ConfirmLane` | internal/bond/bond.go:604-623 | in any order, every transmission up to the acknowledged number is confirmed and removed |
| `LaneLoops.SettleLane` | internal/bond/bond.go:1222-1243 | in any order, exactly the transmissions of acknowledged datagrams are settled |
| `Transport.Transport.SetRemote` | internal/bond/bond.go:416-479 | accepts exactly a newer generation of the same boot or a proven other boot; resets everything that belongs to the pair of epochs and nothing else |
| `TransportEffects.AcceptedIff` | internal/bond/bond.go:416-432 | a remote is accepted exactly if it is real and the first, a newer generation of its boot, or of another boot and adopted |
| `TransportEffects.RemoteStartsAfresh` | internal/bond/bond.go:432-479 | after an accepted remote all that belongs to the pair is as in a new transport and every lane as a new one, up at no time; the queues, the totals and the lanes' identities and lifetime counts stay, and what was pending has expired |
| `Transport.Transport.Path` | internal/bond/bond.go:483-499 | leases the lane, creating it once |
| `TransportEffects.PathLeases` | internal/bond/bond.go:483-499 | the lane is up for exactly the next second; it is created at the end if new; all other lanes and fields stay |
| `Transport.Transport.Disable` | internal/bond/bond.go:501-505 | ends the lease of that lane only |
| `TransportEffects.DisableEnds` | internal/bond/bond.go:501-505 | the lane is up at no time, and nothing else changes |
| `Transport.Transport.Enqueue` | internal/bond/bond.go:516-554 | admits, coalesces, drops or rejects as the bounds say, with the deadline of the class; a bulk datagram may wait as long as the drop schedule then allows |
| `TransportEffects.EnqueueIs` | internal/bond/bond.go:516-554 | a datagram of 1 to 9000 bytes is dropped exactly if 8192 are outstanding, 7168 for bulk; otherwise it waits in the queue of its class, which is bulk above 384 bytes and small TCP or real-time below, until 100 ms from now, or as long as given for bulk |
| `Transport.Transport.ReceiveData` | internal/bond/bond.go:1003-1070 | every refusal in order, the receipt of a new datagram, and the delivery of a number not seen |
| `Transport.Transport.ReceiveAck` | internal/bond/bond.go:1071-1243 | every refusal in order, and the effect of an acknowledgement that is not refused, which `AckEffects.ReceivedAckIff` spells out |
| `Transport.Transport.ApplyAck` | internal/bond/bond.go:1099-1243 | receipts, lane bitmap, byte-total proof and settlement of an accepted acknowledgement, in that order; `AckEffects.AckedIff` and `AckEffects.LanesAfterAck` say what that comes to |
| `AckEffects.AckedIff` | internal/bond/bond.go:1099-1243 | a pending datagram becomes acknowledged, and is no longer pending, if and only if the receipts report it, the lane bitmap reports one of its transmissions on the lane, or equal byte totals prove that one arrived; nothing acknowledged is given up |
| `AckEffects.ReceivedAckIff` | internal/bond/bond.go:1071-1243 | the same of every frame that is received and not refused |
| `AckEffects.LanesAfterAck` | internal/bond/bond.go:1127-1243 | the lane forgets exactly the transmissions reported, proved or passed, and counts as acknowledged exactly the bytes that are no longer outstanding, but for those passed; other lanes forget nothing |
| `AckEffects.StepSettles` | internal/bond/bond.go:1222-1243 | every operation keeps each transmission of an acknowledged datagram confirmed and released, on every lane |
| `AckEffects.NothingAckedInFlight` | internal/bond/bond.go:1222-1243 | so after every run no byte of an acknowledged datagram is in flight, whichever lane reported it |
| `AckEffects.BuiltAckSays` | internal/bond/bond.go:855-876 | an acknowledgement reports exactly the last 64 lane numbers on record and the datagrams on record of the 256 up to its top, with the bytes of the lane and the two spans of time |
| `AckEffects.ReportsFarAsItReaches` | internal/bond/bond.go:855-873 | every unreported datagram less than 256 ahead of the oldest is reported by the next acknowledgement |
| `AckEffects.ArrivalNoted` | internal/bond/bond.go:1040-1064 | a frame the lane had not seen adds one to acknowledge, its bytes and its number, and its time if it is the highest; no other receiver changes |
| `AckEffects.FirstArrival` | internal/bond/bond.go:1038-1043 | the first frame of a lane makes a receiver with nothing on record whose times begin now |
| `AckEffects.EmittedIs` | internal/bond/bond.go:855-876 | sending an acknowledgement moves its receiver to the next revision with nothing pending and the time noted, takes off the unreported record exactly what is at most 255 beyond its oldest, and changes nothing else |
| `Transport.Transport.Report` | internal/bond/bond.go:850-877 | one acknowledgement goes out exactly if the lane the receiver answers on holds a lease of the last second, something is unreported, and 64 datagrams or the interval have gone by; otherwise nothing does |
| `Transport.Transport.PollAcks` | internal/bond/bond.go:850-877 | each receiver in order of appearance is answered exactly as it stands then (`Duties`); none of a pending datagram is left due |
| `Transport.Transport.PollLane` | internal/bond/bond.go:878-917 | times out one lane by its timeout and then sends a ping exactly if it holds a lease of the last second and nothing went out on it for its interval |
| `Transport.Transport.PollLanes` | internal/bond/bond.go:878-917 | exactly that on every lane, in order |
| `Transport.Transport.Repair` | internal/bond/bond.go:921-953 | one datagram is forgotten exactly if acknowledged, else expired exactly if past its deadline, else moved exactly if real-time, sent once, its lane silent and another chosen, else repeated exactly if its lane's timeout has passed, it was sent fewer than four times and another lane, or any once it is shown missing, is chosen |
| `Transport.Transport.PollRepairs` | internal/bond/bond.go:920-956 | every datagram of the pending order is attended to exactly so, in order, in the state it is reached in; nothing acknowledged or past its deadline is left |
| `Duties.AttendedIsOwed` | internal/bond/bond.go:921-953 | the move a datagram is owed is the one of these conditions |
| `Duties.AnsweredIsOwed` | internal/bond/bond.go:850-877 | the acknowledgement a receiver is owed is due under these conditions |
| `Transport.Transport.SendSmall` | internal/bond/schedule.go:376-413 | takes from one class only; a head is dropped exactly when past its deadline or stale by the backlog as it then stands, and otherwise sent on the lane chosen; a copy follows exactly when asked for and another lane can take it; it ends when the queue is empty or its head, in time and not stale, finds no lane; the backlog remembered is the one after all those looks |
| `Transport.Transport.SendCopy` | internal/bond/schedule.go:403-411 | when a copy is asked for, one is sent exactly if a lane other than the original's can take it, and on that lane |
| `Transport.Transport.SendBulk` | internal/bond/schedule.go:414-431 | the same for bulk, where a head with a lane is discarded exactly when the controlled-delay schedule, carried from datagram to datagram, says so |
| `Transport.Transport.SendAll` | internal/bond/schedule.go:375-433 | the classes in order, each until its queue is empty or its head finds no lane; over all of them a head is dropped exactly when past its deadline or when the schedule of its class, carried on, says so; copies follow real-time datagrams and nothing else; afterwards no queue offers an expired datagram and no lane can take the next bulk one |
| `Transport.Transport.Poll` | internal/bond/bond.go:840-958 | first every receiver, lane and pending datagram gets exactly the move it is owed in the state it is reached in, in that order; then each class is sent until it is empty or blocked, with copies where asked for; the frames are those of these moves and no others are made; heads are dropped exactly by deadline or by the schedules carried from poll to poll; afterwards no acknowledgement of a pending datagram is due, no transmission is older than the feedback horizon, nothing acknowledged or past its deadline is kept, no queue offers an expired datagram, and the policy has no lane for the next bulk one |
| `NetworkTheorems.NetStepKeeps` | internal/bond/bond.go:416-1243 | every step of every transport keeps the invariant of the network |
| `NetworkTheorems.AckSoundness` | internal/bond/bond.go:1099-1243 | in every run with loss, repetition and reordering, a datagram is acknowledged at its sender only if a DATA frame carrying it reached the peer in this pair of epochs |
| `AckLaws.AckNumbers` | internal/bond/bond.go:1099-1243 | what one acknowledgement confirms is reported by its receipts or its lane bitmap, or lies in a prefix proved by equal byte totals |
| `Network.EqualTotals` | internal/bond/bond.go:604-623 | when the bytes received of a prefix of a channel are all the bytes sent in it, every frame of the prefix arrived |
| `NetworkTheorems.AtMostOnceDelivery` | internal/bond/bond.go:1065-1070 | in every run no number is handed on twice for a pair of epochs, whatever the lanes repeat |
| `NetworkTheorems.NoReceiptForgotten` | internal/bond/bond.go:855-876 | in every run each delivered datagram is still unreported, was reported by an acknowledgement that was sent, or has fallen 8192 behind |
| `NetworkTheorems.RemovedIsReported` | internal/bond/bond.go:862-873 | every number an acknowledgement takes off the unreported record is reported by that very acknowledgement |
| `NetworkTheorems.ReportedIsReceived` | internal/bond/bond.go:862-873 | an acknowledgement reports only numbers received |
| `NetworkTheorems.EachAckShrinksUnreported` | internal/bond/bond.go:855-876 | each acknowledgement sent while something is unreported makes that record strictly smaller |
| `NetworkHistory.ProjectsNew` | internal/bond/bond.go:405-1243 | in every run of the network each transport is where its own operations take a new transport, so all laws of single runs hold of it |
| `NetworkHistory.DeliveredIntact` | internal/bond/bond.go:1065-1070 | what is delivered under a number is the datagram of every frame the sender ever sent under it in this pair of epochs, and there is one |
| `NetworkHistory.AckedIsDelivered` | internal/bond/bond.go:1065-1243 | in every run a number acknowledged at its sender was handed on by the peer in this pair of epochs, or the peer handed on one 8192 or more ahead |
| `NetworkHistory.AckCompleteness` | internal/bond/bond.go:1071-1097 | an acknowledgement the peer sent in this pair of epochs is refused, in any order of delivery, exactly when its revision is among those the run accepted since the adoption or is 8192 or more behind one of them |
| `NetworkDelivery.DataCompleteness` | internal/bond/bond.go:1003-1070 | in every run a DATA frame the peer sent in this pair of epochs, brought in any order to the lane that expects it, is never refused; it hands on its datagram exactly if it carries one, neither that number nor one 8192 or more ahead was handed on in this pair, and no frame 8192 or more ahead on its lane has arrived |
| `UsedLanes.TotalsProveIff` | internal/bond/bond.go:604-623 | equal byte totals prove a prefix only on a lane that had sent nothing before its transport adopted the remote; there they do for every newest acknowledgement that reports the whole prefix and matches a remembered transmission |
| `UsedLanes.UsedForever` | internal/bond/bond.go:416-479 | a lane that sent bytes before its present remote counts as used in every later state |
| `UsedLanes.ProofDeadAfterChange` | internal/bond/bond.go:604-623 | so a lane in use at a change of remote never again proves a prefix by byte totals, in any continuation of any run |
| `UsedLaneRun.UsedLaneCannotProve` | internal/bond/bond.go:444-623 | a run with a ping before the change of remote and one after it: the acknowledgement of the second is accepted as the newest and reports every byte sent to the peer, and proves nothing; without the first ping the same run proves the prefix |
| `Reservation.ByLatencySorts` | internal/bond/schedule.go:118-130 | the lanes considered are exactly those eligible for real-time, by latency |
| `Reservation.ByLatencyStable` | internal/bond/schedule.go:118-130 | every eligible lane is considered once, lanes of equal latency in the order they are held in |
| `Reservation.GreedyLaw` | internal/bond/schedule.go:146-161 | assigning demand in order never exceeds a lane's room or the need, leaves need over only if every lane is full, and uses a lane only if every faster one is full |
| `Reservation.Assign` | internal/bond/schedule.go:146-161 | the loop computes the greedy assignment |
| `Reservation.Assignable` | internal/bond/schedule.go:207-218 | the estimate is the share the greedy assignment would give the lane |
| `Reservation.ChooseGuarantor` | internal/bond/schedule.go:136-145 | the guarantor is eligible for the next class, has the most room left of those that are, and is the first of equals; there is none exactly when no lane is eligible |
| `Reservation.ReserveCopies` | internal/bond/schedule.go:185-205 | what each lane sets aside for copies |
| `Reservation.KeepBulkOff` | internal/bond/schedule.go:167-175 | marks exactly the lanes with a real-time reservation while another lane for bulk has none |
| `Reservation.CopiesCoverSuspects` | internal/bond/schedule.go:185-205 | each lane has room for a copy of all that suspect lanes elsewhere carry, or gives all the room it has |
| `Reservation.Reserve` | internal/bond/schedule.go:118-178 | the result is the reservation of both classes, the copies, both guarantors and the lanes bulk keeps off |
| `Reservation.ReservationSafe` | internal/bond/schedule.go:118-205 | on every lane reservations and copies are non-negative and within its rate; each class is within its need; need is left over only if every room is used up; real-time reaches a lane only if every faster one is full |
| `Reservation.GuaranteedShare` | internal/bond/schedule.go:250-280 | a lower class has exactly one guarantor when some lane is eligible for it and none otherwise, and there it may use at least 5% of the rate, in every branch |
| `Reservation.AllowedLeavesReserved` | internal/bond/schedule.go:250-280 | where reservations fit a lane, what a class may use leaves all that is reserved above it free, or is exactly the guaranteed 5%, and stays between zero and the rate; that it is no less than that leaves is `Reservation.NothingWithheld` |
| `Reservation.AllowedAfterReserve` | internal/bond/schedule.go:118-280 | that holds for every class on every lane after every reservation; with `Reservation.NothingWithheldAfterReserve` it fixes the rate |
| `Reservation.NothingWithheld` | internal/bond/schedule.go:250-280 | what a class may use is all of the rate that is not reserved above it or kept for the classes below, and at least its guaranteed 5%; bulk on a lane too slow for it beside real-time has that 5% or nothing, and small TCP beside waiting bulk what is reserved for it |
| `Reservation.NothingWithheldAfterReserve` | internal/bond/schedule.go:118-280 | so for every class on every lane after every reservation |
| `Reservation.ReservedInFull` | internal/bond/schedule.go:132-166 | real-time is reserved all of a lane but a tenth where lower classes are guaranteed, small TCP what is left but a twentieth where bulk is guaranteed, halved beside waiting bulk, both while need is left |
| `Reservation.CopiesInFull` | internal/bond/schedule.go:185-205 | a lane sets aside its part of the copy rate, the part of the originals other lanes carry, or all originals of suspect lanes elsewhere if that is more, up to its room; none without originals or on a single lane |
| `Scheduling.AdmittedIffEveryWindowHolds` | internal/bond/bond.go:835-838 | the clock admits with a lead if and only if the work charged since every earlier charge, and since the start, fits the time passed plus 2 ms plus the lead, for any rates |
| `Scheduling.PacedBytes` | internal/bond/bond.go:835-838 | from any charge to an admission a lane carries at most its highest rate times the window, 2 ms and the lead, pings and acknowledgements included |
| `Scheduling.ChooseLane` | internal/bond/schedule.go:285-342 | none exactly when no lane may send; otherwise a lane that may, the first of those with the least sum of the time it is free to send at and half its latency |
| `Scheduling.OneLeasedIff` | internal/bond/schedule.go:289-296 | a real-time datagram, and no other, is told of a single lane exactly when exactly one is up |
| `Scheduling.RealtimeAdmittedIff` | internal/bond/schedule.go:298-335 | a lane may send a real-time datagram exactly if it is live or suspect, not to be avoided, its window is not full or real-time is within its share of it, and the class and the lane are due but for 5 ms and, for the lane, the time of that datagram or of a full one |
| `Scheduling.LowerAdmittedIff` | internal/bond/schedule.go:298-358 | a lane may send a datagram of a lower class exactly if its state carries the class, it is not to be avoided, drained or flushed, the class is allowed a rate, the datagram fits the window and with its class the share of that rate, or is alone, and lane and class are due, but for 5 ms if contended |
| `Scheduling.RealtimeGoesFirst` | internal/bond/schedule.go:285-342 | where a datagram of a lower class may go, a real-time one may as soon as its own class is due |
| `Scheduling.IdleLaneTakesAny` | internal/bond/schedule.go:285-342 | an idle lane that is live and due takes a datagram of any size of every class allowed a rate |
| `Scheduling.ChosenIsPaced` | internal/bond/schedule.go:304-335 | whenever a lane is chosen, the service charged on its clock since any earlier charge is at most the time passed plus 2 ms plus the lead allowed, and likewise on the class's clock |
| `PacedRuns.ChargedBytes` | internal/bond/bond.go:807-876 | over any run that stays with one remote, what is charged to a lane's clock is what the lane counts as sent, and the acknowledgements sent on it |
| `PacedRuns.PacedLane` | internal/bond/bond.go:835-876 | over any such run from a transmission on, at whatever rates, when the lane's clock admits with a lead, all the lane has sent since is at most its highest rate times the time passed, 2 ms and the lead |
| `PacedRuns.ChosenLanePaced` | internal/bond/schedule.go:304-335 | so it is whenever that lane is chosen, with the lead and the loan the datagram is allowed |
| `Scheduling.EventKeepsBound` | internal/bond/schedule.go:312-332 | each send, retry, ping or release keeps the bound |
| `Scheduling.InFlightBounded` | internal/bond/schedule.go:312-332 | over every run of sends, retries, pings and releases the real-time bytes in flight stay within one window and a datagram, those of lower classes together within a window or one datagram |
| `LossLedgers.LossLedger.Add` | internal/bond/control.go:643-651 | drops the entries past the horizon and records a count only for a higher number, never below the settled loss |
| `LossLedgers.LossLedger.Settled` | internal/bond/control.go:655-665 | the lowest deficit of the settling period, raising the settled loss to it |
| `LossLedgers.LossLedger.LostBytes` | internal/bond/control.go:673-700 | the loss since the first horizon with enough datagrams |
| `LossLedgers.RecordIs` | internal/bond/control.go:643-651 | after a count exactly the entries of the last 4.4 seconds are kept, and one is added, of the bytes missing or the settled loss if that is more, exactly if its number is higher than theirs |
| `LossLedgers.SettledIs` | internal/bond/control.go:655-665 | a result is known exactly if the period has an entry; it is the lowest deficit, and the settled loss rises to it |
| `LossLedgers.SettledNeverFalls` | internal/bond/control.go:614-665 | over any run at non-decreasing times later known results are never lower, however deficits dip |
| `LossLedgers.EntriesOrdered` | internal/bond/control.go:643-651 | over any run entries are strictly increasing in number and in bytes sent, and were all counted |
| `LossLedgers.LossNeverOvercounted` | internal/bond/control.go:673-709 | over any run the reported loss is non-negative and at most what the counts ever showed missing, with positive counts or none, so no subtraction underflows; a lane that lost nothing has no material loss |
| `LossLedgers.LostIs` | internal/bond/control.go:673-700 | the loss is exactly the rise of the lowest deficit from the nearest horizon that is judged, by 150 datagrams or, at four seconds, by any, to the current period, with the bytes and datagrams between; zero exactly without such a horizon or period |
| `LossLedgers.MaterialIff` | internal/bond/control.go:706-709 | loss is material exactly if it is at least three average datagrams and a fiftieth of what was sent |
| `SlidingWindows.SlidingWindow.Rotate` | internal/bond/control.go:769-780 | every bucket holds exactly what was recorded in its span, through rotation and reset |
| `SlidingWindows.SlidingWindow.Record` | internal/bond/control.go:782-785 | adds one sample to the history the buckets represent |
| `SlidingWindows.SlidingWindow.Peak` | internal/bond/control.go:787-794 | at least every value of the last four bucket lengths; zero or a value younger than five, for any run |
| `SlidingWindows.SlidingWindow.Rate` | internal/bond/schedule.go:63-70 | times the length of a bucket, the highest of the sums of the five adjacent bucket lengths up to the current one; so at least every recent sample, and at least half of what was recorded in any bucket length begun in the last four |
| `SlidingWindows.HighestIsPeak` | internal/bond/control.go:787-794 | the highest of five adjacent spans is the recent peak |
| `SlidingWindows.HighestIsSum` | internal/bond/schedule.go:63-70 | the highest of five adjacent sums bounds every recent sample, and half of every sum over a bucket length, however it lies to the buckets |
| `SustainedDeliveries.SustainedDelivery.Record` | internal/bond/control.go:735-744 | records for the peak the rate since the newest mark at least a span old, and nothing exactly when none is that old |
| `SustainedDeliveries.SustainedDelivery.Value` | internal/bond/control.go:746 | at least every rate of the last four bucket lengths; zero or a rate recorded less than five ago |
| `Membership.StepKeeps` | internal/bind/multipath.go:2614-2755 | Open, Close, AddPath, RemovePath, reconciliation and a new peer keep every peer's probers aligned with the configured paths, the views equal to the bound sockets, and bound and deferred paths a partition of the configuration |
| `Membership.EnrollKeepsIff` | internal/bind/multipath.go:1174-1208 | registering a peer keeps that if and only if it is refused or its probers carry the stamps of the primary's; the code compares their number only |
| `Membership.AlwaysInv` | internal/bind/multipath.go:1256-1482 | that holds in every state of every run |
| `Membership.StaysOpen` | internal/bind/multipath.go:2906-2966 | every operation but Close leaves an open bind with a bound socket |
| `Membership.BoundUntilClose` | internal/bind/multipath.go:1256-3005 | from a successful Open to the next Close, whatever is added, removed or promoted, some socket is bound and every peer has a view of every bound one |
| `Membership.IdsNeverReused` | internal/bind/multipath.go:2643-2646 | an id given up is never taken again in any later state of any run, across Close and Open |
| `Membership.OpenKeeps` | internal/bind/multipath.go:1256-1482 | a successful Open partitions the configured paths and raises the mark above every id |
| `Membership.AddKeeps` | internal/bind/multipath.go:2614-2755 | admission, bound or deferred, adds the path and its id in every slice at once |
| `Membership.RemoveKeeps` | internal/bind/multipath.go:2906-3005 | removal by name keeps configuration, probers, views and deferred paths aligned; what it removes is `MembershipEffects.RemovedIs` |
| `Membership.ReconcileKeeps` | internal/bind/reconcile.go:94-176 | promotion moves paths from deferred to bound and loses none |
| `MembershipEffects.RemovedIs` | internal/bind/multipath.go:2906-3005 | a removal is refused exactly if not open, not configured or the last bound path; otherwise the path leaves configuration, sockets, deferred paths, every peer's views and probers, and every other path keeps its id, place and side |
| `MembershipEffects.AddedIs` | internal/bind/multipath.go:2614-2755 | an addition is refused by the first reason that applies and changes nothing; otherwise the path is configured last, with the next id, for every peer, and bound or deferred behind the others |
| `MembershipEffects.OpenedIs` | internal/bind/multipath.go:1256-1482 | Open succeeds exactly if closed, no socket fails, one is bound and every transport is built; then exactly the paths that could be bound are, and those without an address are deferred, both in configured order |
| `MembershipEffects.OpenedMark` | internal/bind/multipath.go:1256-1482 | Open raises the mark of used ids no further than one past the highest |
| `MembershipEffects.ReconciledIs` | internal/bind/reconcile.go:94-176 | exactly the deferred paths that could be bound move behind the bound ones, in order |
| `MembershipEffects.ClosedIs` | internal/bind/multipath.go:2487-2505 | no socket, view or deferred path is left, and the configuration with its ids stays |
| `MembershipEffects.EnrolledIs` | internal/bind/multipath.go:1174-1208 | a new peer is refused by the first reason that applies and changes nothing; otherwise it is the last peer, with the probers given and no view, and nothing else changes |
| `MembershipEffects.StepMembers` | internal/bind/multipath.go:1256-3005 | after any operation a path is configured with an id exactly if it was and was not taken out, or came in under the next id |
| `MembershipEffects.StaysOut` | internal/bind/multipath.go:1256-3005 | over every run a path that is nowhere stays nowhere until an addition of that name succeeds |
| `MembershipEffects.StaysIn` | internal/bind/multipath.go:1256-3005 | over every run a configured path keeps its id until a removal of that name succeeds |
| `Multipaths.Multipath.Open` | internal/bind/multipath.go:1256-1482 | the loop over paths and peers yields the opened state, or unwinds to the closed one; the desync error is unreachable |
| `Multipaths.Multipath.Close` | internal/bind/multipath.go:2487-2505 | every socket, view and deferred entry goes; the durable membership stays |
| `Multipaths.Multipath.AddPath` | internal/bind/multipath.go:2614-2755 | refusals in order, deferral with a prober for every peer, or admission for every peer |
| `Multipaths.Multipath.AddConcentratorPeer` | internal/bind/multipath.go:1174-1208 | refusals in order; otherwise the peer is added without views, while the bind is closed |
| `Multipaths.Attach` | internal/bind/multipath.go:2801-2826 | every peer gets the view, or after a failure in the middle every peer is as before |
| `Multipaths.Rollback` | internal/bind/multipath.go:2814-2821 | taking views back by name from the last peer to the first restores every peer |
| `Multipaths.Multipath.RemovePath` | internal/bind/multipath.go:2906-2966 | the refusals in order and then the state without the path, which `MembershipEffects.RemovedIs` spells out |
| `Multipaths.Forget` | internal/bind/multipath.go:2988-3005 | the alignment guard never fires and the entry is dropped from every slice |
| `Multipaths.Multipath.ReconcileDeferred` | internal/bind/reconcile.go:94-176 | promotes exactly the paths that bind for every peer and keeps the rest in order |
| `Multipaths.Promote` | internal/bind/reconcile.go:192-262 | reuses every peer's prober at the path's configured place, so the path keeps its id |
| `Demux.Survey` | internal/bind/multipath.go:1924-1939 | count and oldest binding of a peer, for any order of the map |
| `Demux.DemuxTable.Bind` | internal/bind/multipath.go:1904-1973 | one successful swap: no-op, refusal, re-point, insertion, or insertion for the peer's own oldest |
| `Demux.DemuxTable.Unbind` | internal/bind/multipath.go:1980-2006 | exactly the peer's entries go |
| `Demux.Isolation` | internal/bind/multipath.go:1904-1973 | binding for a peer removes or changes no entry of another peer at another address |
| `Demux.BindIs` | internal/bind/multipath.go:1904-1973 | a bind succeeds exactly unless the address is new, the cap reached and the peer below its quota; then the address is the peer's, and one entry goes exactly if the address is new and the peer at its quota: the peer's oldest |
| `Demux.UnbindIs` | internal/bind/multipath.go:1980-2006 | an unbind takes out exactly the entries of the peer |
| `Demux.AlwaysCapped` | internal/bind/multipath.go:1904-2006 | in every interleaving of bind and unbind steps the map stays within the cap |
| `Demux.RefusedOnlyBehindExcess` | internal/bind/multipath.go:1940-1951 | with a cap of at least the number of peers a bind is refused only while another peer exceeds its quota |
| `Demux.QuotaKeptIff` | internal/bind/multipath.go:1904-2006 | from within all quotas a step keeps them if and only if it does not move another peer's address to a peer that is at its quota |
| `Demux.WithinQuotaIff` | internal/bind/multipath.go:1904-2006 | over every run all peers were within their quotas in every state so far if and only if no step so far did that |
| `Demux.NeverRefused` | internal/bind/multipath.go:1862-1952 | with a cap of at least the number of peers, no bind is refused as long as no step has done that |
| `Demux.RepointingCanRefuse` | internal/bind/multipath.go:1910-1925 | a run with one re-point exceeds a quota and gets another peer below its own refused |
| `Demux.BindDeterministic` | internal/bind/multipath.go:1924-1949 | insertion numbers are distinct, so eviction is first bound, first evicted, with one outcome |
| `Demux.StepValid` | internal/bind/multipath.go:1967 | insertion numbers stay distinct |
| `Failover.FlatDistinct` | internal/device/failover.go:230-246 | equal addresses of different specs stay different entries of the flattened list |
| `Failover.ExpansionIs` | internal/device/resolution.go:283-303 | the expansion holds exactly the usable records, canonical, each once, IPv4 first |
| `FailoverLaws.ActiveAlwaysListed` | internal/device/failover.go:188-518 | over every run of resolutions and checks `idx` is the place of the active identity, the active entry is listed, and the bond points at it |
| `FailoverLaws.CheckKeeps` | internal/device/failover.go:425-518 | a check keeps the identity, its place and the remote in agreement |
| `FailoverLaws.SwitchesIff` | internal/device/failover.go:425-518 | a check moves off the active endpoint exactly in an outage, with another one listed, a settling time after the last switch |
| `FailoverLaws.UpdateKeeps` | internal/device/failover.go:300-348 | so does a resolution with distinct addresses that is not empty |
| `FailoverLaws.RepointedIffGone` | internal/device/failover.go:300-348 | a resolution repoints, to the first new address, exactly when there was no endpoint or the active one left its spec; otherwise nothing moves |
| `FailoverLaws.ResolutionListed` | internal/device/failover.go:300-348 | the spec lists exactly the new addresses, every other spec its own, and an outage under way goes on counting |
| `FailoverLaws.OutageCourse` | internal/device/failover.go:425-518 | after a advances of an outage the active endpoint is a places on round the list, and the latch is set once a reaches n |
| `FailoverLaws.EveryEndpointTried` | internal/device/failover.go:486-497 | in an outage of n advances or more every listed endpoint is active within the first n, none after two different numbers of them, and the n-th returns to the first |
| `FailoverLaws.AdvancesApart` | internal/device/failover.go:470-480 | a advances take at least a settling times |
| `FailoverLaws.RaisedOnTheNthAdvance` | internal/device/failover.go:508-530 | exhaustion is raised on the n-th advance of an outage and on no other check of it |
| `ExhaustionLaws.CountCarried` | internal/device/failover.go:300-348 | with lookups answered during an outage, the controller counts all its advances until exhaustion is raised, whichever list they were made on |
| `ExhaustionLaws.ExhaustionJustifiedIff` | internal/device/failover.go:508-518 | when exhaustion is raised on a list that stands since some state of the outage, every endpoint of it was tried on it if and only if at most one advance came before that state or the list has two entries; and the raise is on the advance that is due |
| `ExhaustionLaws.RaisedBeforeAllTried` | internal/device/failover.go:508-518 | a run in which a lookup replaces a list of three after two advances, and exhaustion is raised with an endpoint that was never active |
| `FailoverLaws.OncePerOutage` | internal/device/failover.go:425-530 | over any run, between two raised exhaustions a check found a path up |
| `FailoverLaws.RecoveryRearms` | internal/device/failover.go:425-446 | a check that finds a path up leaves the endpoint and arms the controller again, whatever went before: the next outage raises exhaustion on its n-th advance |
| `FailoverLaws.SingleStays` | internal/device/failover.go:447-468 | a check never moves a single endpoint; it is exhausted exactly after a settling time of outage |
| `FailoverLaws.SingleRaisedOnce` | internal/device/failover.go:447-468 | in an outage a single endpoint is exhausted at the first check a settling time after the onset and at no other |
| `FailoverLaws.StartsFirst` | internal/device/failover.go:169-205 | the controller starts at the first endpoint listed, with nothing counted, or at none |
| `HubFailovers.FlatIndex` | internal/device/failover.go:235-246 | the place of the entry of that very spec, -1 exactly when it is not listed |
| `HubFailovers.EntryAt` | internal/device/failover.go:250-264 | the entry at a place of the flattened list, none out of range |
| `HubFailovers.FlatLen` | internal/device/failover.go:207-213 | the length of the flattened list |
| `HubFailovers.Snapshot` | internal/device/failover.go:548-560 | the flattened list in order, marking exactly the entry at `idx` |
| `HubFailovers.HubFailover.UpdateResolution` | internal/device/failover.go:300-348 | boot adoption, repoint or nothing, with `idx` mapped again |
| `HubFailovers.HubFailover.CheckStep` | internal/device/failover.go:425-530 | one evaluation: waiting, advancing, exhausting or recovering |
| `HubFailovers.OrderAddrPorts` | internal/device/resolution.go:283-303 | the loop with its seen set computes the expansion |
| `HubFailovers.ResolveTarget` | internal/device/resolution.go:198-216 | a failed or empty lookup publishes nothing |
| `Bytes.ValueOfBytes` | internal/frame/frame.go:228-234 | a number is read back from its big-endian bytes |
| `Bytes.XorUndoes` | internal/frame/frame.go:483-493 | the exclusive or with the same byte undoes itself |
| `Frames.Cipher.XorKeyStream` | internal/frame/frame.go:356-388 | covers or uncovers a buffer in place from a place on, and moves the keystream on by as much |
| `Frames.Encode` | internal/frame/frame.go:305-333 | refuses an oversized or payload-bearing padded probe, otherwise the encoding under the nonce |
| `Frames.Decode` | internal/frame/frame.go:343-388 | the split keystream pass equals one exclusive or over the body |
| `Frames.Uncover` | internal/frame/frame.go:378-387 | the first byte already uncovered, the same keystream continued over the rest gives the whole body |
| `Frames.DecodeBody` | internal/frame/frame.go:413-464 | the cursor with its first error equals parsing by position |
| `Frames.WireRoundTrip` | internal/frame/frame.go:305-388 | decoding an encoding gives the frame back, except the pad length of an unpadded probe: the same frame exactly when that is zero |
| `Frames.AcceptedIsAuthentic` | internal/frame/frame.go:343-388 | nothing is accepted without the tag of its nonce and body |
| `Frames.PaddedSize` | internal/frame/frame.go:176-203 | a padded probe has a given size on the wire exactly if it is padded for it, and no size out of range can be had |
| `Wire.AppendHeader` | internal/bond/wire.go:38-45 | the buffer filled in place is the header's bytes |
| `Wire.DataFrame` | internal/bond/wire.go:58-65 | the DATA bytes in order |
| `Wire.AckFrame` | internal/bond/wire.go:86-96 | the acknowledgement's bytes, written by loops |
| `Wire.HeaderExact` | internal/bond/wire.go:38-56 | a header parses from bytes if and only if they begin with its encoding and its epoch is not zero |
| `Wire.DataExact` | internal/bond/wire.go:58-65 | header and fields of DATA parse from bytes if and only if those are their encoding, the epoch is not zero and the payload not too long |
| `Wire.AckExact` | internal/bond/wire.go:86-112 | header and acknowledgement parse from bytes if and only if those are their encoding, the epoch is not zero and the times fit the clock |
| `Wire.HelloExact` | internal/bond/wire.go:114-126 | a hello parses from bytes if and only if those are its encoding and the epoch is not zero |
| `Wire.ReceiptsSurvive` | internal/bond/wire.go:78-84 | a number is reported by the parsed acknowledgement exactly if the window that filled it holds it and it is at most 255 behind the top |
| `Wire.DataTravels` | internal/bond/bond.go:74 | a DATA frame sealed and opened yields the lane number and all fields, and occupies exactly the bytes charged for it |
| `Wire.AckTravels` | internal/bond/wire.go:86-112 | an acknowledgement sealed and opened yields the revision and all fields |
| `TransportWire.OrderSurvives` | internal/bond/bond.go:800-806 | packing a delivery order with its interactive bit and unpacking a word undo each other, for every order with room for the bit and every word |
| `TransportWire.DataReadIff` | internal/bond/wire.go:58-65 | a control frame is read as a transport's DATA if and only if it is that DATA as written |
| `TransportWire.DataArrives` | internal/bond/wire.go:58-65 | DATA of one transport, sealed and opened, is the same DATA at the other, and is charged its bytes on the wire |
| `TransportWire.BuiltBitmapsFit` | internal/bond/bond.go:869 | the lane mask and the receipt bitmap an acknowledgement is built with have room in their words |
| `TransportWire.AckReadIff` | internal/bond/wire.go:86-112 | a control frame is read as a transport's acknowledgement if and only if it is that one as written, lane mask and receipt bitmap included |
| `TransportWire.AckArrives` | internal/bond/wire.go:86-112 | an acknowledgement of one transport, sealed and opened, reports the same lane numbers and the same datagrams at the other |

## Left out

- The control law of a lane (`adjust`, `discover`, `congested`, `holdOrPulse`, round-trip estimates, stalls): float heuristics without a stated bound; the transport's laws hold for every outcome of it.
- Rounding elsewhere: rates, service times and deficits are exact reals where the code rounds floats to nanoseconds; `int` truncation is kept only in the share of a window.
- Wrap-around of 64-bit counters: counters are unbounded; 2^64 transmissions or bytes are out of reach.
- Transport.Transport.Poll: what the policy's functions compute is not fixed here; `Scheduling` and `Reservation` model the choice of a lane on their own data, and the two are not connected.
- DropSchedules.Spacing: the quotient is exact and rounded down where the code divides floats.
- Scheduling.ChooseLane: window, allowed rates and liveness of a lane are read from its view and not recomputed.
- Scheduling.ChosenIsPaced: that a clock is the fold of its charges is shown of the lane's clock over runs (`PacedRuns`) and is a hypothesis for the clocks of the classes.
- SlidingWindows.SlidingWindow.Rate: the samples are taken as non-negative byte counts; `steady` is not modelled.
- Demux.DemuxTable.Bind: the compare-and-swap retry is one atomic step; a step that lost the race changes nothing.
- Membership.StepKeeps: reader goroutines, device binding, remotes of views and the retirement of sockets are not part of the state.
- The poll schedule of the resolver (`step`, `pollAll`, `clampPollDelay`, `checkLivenessLoss`): comparisons of times that would add easy members; every order of lookups and checks is covered by the runs.
- Frames.Decode: scratch buffers of a codec are fresh in each call; that results do not alias them is not stated.
- Epoch adoption by probes and their challenge, `internal/telemetry`, the resequencer and the exit selector: inputs or outputs of what is modelled.
- Sockets, netlink, TUN, configuration, metrics and monitoring: input, output and rendering.
