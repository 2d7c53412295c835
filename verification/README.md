# BeastLounge in Dafny

A model of the stateful protocols inside BeastLounge, a multi-user chat and blackjack server, with
proofs of what holds in every run of them. Verify with `dafny verify dfyconfig.toml`.

| file | models |
|---|---|
| `Membership.dfy` | the two sets `channel::users_` and `user::channels_`, updated in separate critical sections by any number of interleaved users; broadcasts through weak pointers; `~user`; names |
| `ChannelObjects.dfy` | `channel` and `user` as objects updated in place, one operation at a time |
| `TableStrand.dfy` | the blackjack table as a channel: membership plus the FIFO queue of posted handlers, and who may hold a seat |
| `Game.dfy` | seats, `join`, `leave`, `surrender`, `bet`, `start` |
| `Shoe.dfy`, `Hand.dfy` | shuffling and dealing; the value of a hand and playing it out |
| `WriteQueue.dfy` | the outgoing message queue of a WebSocket session |
| `SharedBuffer.dfy` | the reference-counted `message` |
| `Shutdown.dfy` | services, countdown, signals, `stop` |
| `Rpc.dfy` | a JSON-RPC request by itself: `extract`, and routing by `cid` |
| `Requests.dfy` | the life of a request in the running server, on top of `TableStrand.dfy`: received, checked against the lounge, carried out there or posted to the strand, and answered |

Each protocol is a state and a set of events. `Enabled` says when an event can happen, `Next` what it
does, and `CanRun`/`After` describe arbitrary runs. An event is one critical section, one handler or
one atomic operation, so a theorem about all runs is a theorem about all interleavings. Broken
assertions, out-of-range indices and uses of freed storage are possible in the model (`fault`, plain
set operations, freed phases) and are proved not to occur; they are not ruled out by preconditions.
The classes hold the fields the program updates in place, and their methods are proved against the
same `Next` functions.

Four properties turned out to be false of the program. For each there is a run from the start that
breaks it, and the exact condition under which it holds:

- **Every seat belongs to a member, or to someone about to be unseated.** The table does not check that
  the sender of `play` is a member. A user that never joined can take a seat and disconnect, and then
  the seat names freed storage while nothing is queued to vacate it (`SeatOfFreedUser`). The missing
  check is exactly `is_joined`: when the strand is idle and a seat is open, a `play` leaves every seat
  accounted for if and only if a member sent it (`SeatsAccountedIffJoined`), and in runs in which only
  members send `play` it always is (`SeatsBelongToMembers`).
- **No seat names freed storage.** That check would not be enough for this one. Also in runs in which
  only members send `play`, a player can be freed before the strand gets to its `do_erase`
  (`FreedSeatInDisciplinedRun`), and an `update` that runs in between reads the name of every seated
  user (`UpdateMeetsFreedSeat`). The guard it takes is on the other side: in every run in which no user
  loses its last reference while it holds a seat, whoever sends `play`, no seat ever names freed storage
  (`CarefulRunsHaveNoFreedSeat`), and every other run has a point from which one can
  (`CarelessRunsCanFreeASeat`; state by state, `FreedIffDropped`). If only members send `play`, a seat
  has its `do_erase` queued if and only if the session it was taken in is over
  (`EraseQueuedIffSessionOver`), so a seat of a freed user always has it queued
  (`FreedHolderIsQueued`), and none is left when the strand has run dry (`DrainedSeatsAreCurrent`).
- **A reply for every request with an id.** Two exceptions escape every handler and end the process: a
  `cid` that does not convert to an index (`StringCidUnanswered`), and a `start` whose turn comes when
  the hand at `turn_` holds 22 cards, which a client can bring about alone by asking 133 times
  (`LastStartUnanswered`); `StartFitsIff` says when a hand is full. Calls of others that are under way
  at that moment die with it, so a request without any fault can go unanswered too
  (`GoodRequestUnanswered`). That is all: a request with an id has exactly one reply, sent or due, until
  the process ends, and after that exactly one unless it was the request that ended the process or had
  its call under way then, when it has none (`EveryRequestAnsweredOnce`, over all runs).
- **Every queued message is written.** One arrival per completion starves a message for ever, from a
  new session (`ThirdMessageStarves`). A message below the one being written is put on the wire if and
  only if completions outnumber arrivals so far that the queue ends with it (`WrittenIffQueueShrinks`).

The System channel also admits users with an empty name (`SystemAdmitsEmptyName`); the model follows the
code.

Parameters of the model rather than parts of it: the random stream (`rand`), the times read from the
clock, the state of the socket in `do_send`, the outcome of each write, and the card dealt by `start`.

## Model

| member | source | states |
|---|---|---|
| `Membership.StepKeepsInv` | server/core/channel.cpp:59-118 | every critical section, snapshot, weak-pointer lock and delivery of any user keeps the invariant over all users and channels |
| `Membership.RunKeepsInv` | server/core/channel.cpp:59-118 | so does every interleaving of join, leave, identify, disconnect and address reuse |
| `Membership.SetsMirror` | server/core/channel.cpp:59-118 | in every reachable state a channel lists a user iff the user lists the channel, and they differ iff that pair is between its two locked updates |
| `Membership.VerifyNeverFails` | server/core/user.cpp:27-41 | neither BOOST_VERIFY can fail in any reachable state |
| `Membership.NoDanglingMember` | server/core/user.cpp:14-25 | a freed user is in no channel's list |
| `Membership.SnapshotReadsLiveStorage` | server/core/channel.cpp:172-188 | the copy made by `send` dereferences only users whose storage is not freed, and holds one weak pointer per member (plus the leaver's own in `erase`) |
| `Membership.DeliverReachesLiveUser` | server/core/channel.cpp:187-193 | a message is handed only to a live user that is the incarnation listed when the copy was made, never to a newcomer at a reused address |
| `Membership.BroadcastReachesMembers` | server/core/channel.cpp:72-118 | from the copy to the second critical section of `insert` or `erase`, under any interleaving, a user listed when the copy was made, and in `erase` the leaver, receives the notice at most once, and exactly once if it is still alive at the end; nobody else receives it, a newcomer at the same address included |
| `Membership.LockLeadsToDeliver` | server/core/channel.cpp:187-193 | a weak pointer leads to a delivery to its user iff that incarnation is alive when it is locked |
| `Membership.OperationDescendsInEveryRun` | server/core/channel.cpp:59-118 | under any interleaving with other users, a user in the middle of an insert or erase is done with it on the way or has strictly less to do if it took a step, and is exactly where it was if it took none |
| `Membership.OperationDescends` | server/core/channel.cpp:59-118 | every step of a user inside an insert or erase strictly decreases a lexicographic measure, and touches no channel's list |
| `Membership.OperationCompletes` | server/core/channel.cpp:72-118 | from every state, whatever the others are in the middle of, an insert or erase that has begun has a run to its end, and then both sets agree on its channel |
| `Membership.DrainDescends` | server/core/user.cpp:14-25 | every step inside `~user` strictly decreases a lexicographic measure; in particular `erase` cannot return false there |
| `Membership.DrainDescendsInEveryRun` | server/core/user.cpp:14-25 | under any interleaving with other users, a dying user is freed on the way or has strictly less to do if it took a step |
| `Membership.DrainCompletes` | server/core/user.cpp:14-25 | from any reachable state `~user` runs to its end, and then no channel lists the user |
| `Membership.LinkSteps` | server/core/channel.cpp:87-118 | with each channel a user goes round outside, inside, leaving, and only the call of the channel's `on_erase` ends the leaving |
| `Membership.NameNeverChanges` | server/core/system.cpp:69-82 | over every run a name, once set, stays the same for as long as that user exists |
| `Membership.MembersAreNamed` | server/core/channel.cpp:145-161 | every member of a channel other than System has a name of 1 to 20 bytes, in every reachable state |
| `Membership.SystemAdmitsEmptyName` | server/core/system.cpp:69-82 | System makes no such promise: a reachable state has a member with an empty name |
| `ChannelObjects.Channel.Send` | server/core/channel.cpp:172-193 | each connected user in the list receives the message exactly once, nobody else receives anything |
| `ChannelObjects.Channel.Insert` | server/core/channel.cpp:59-85 | false iff present; otherwise both sets gain the pair, connected members get the notice, all other pairs stay mirrored |
| `ChannelObjects.Channel.Erase` | server/core/channel.cpp:87-118 | false iff absent; otherwise both sets lose the pair, the remaining members and the leaver get the notice, all other pairs stay mirrored |
| `ChannelObjects.User.Destroy` | server/core/user.cpp:14-25 | the loop terminates and removes the user from every channel and from nothing else |
| `TableStrand.EngagedSteps` | server/core/blackjack.cpp:554-570 | a user stays engaged in one session of membership until `do_erase` for that session is posted, and only a new session engages it |
| `TableStrand.OnePostPerSession` | server/core/blackjack.cpp:554-570 | in every run, for every address, each session has posted exactly one `do_insert`, unless its `insert` is still under way, and exactly one `do_erase`, unless it goes on |
| `TableStrand.StrandRunsTheGame` | server/core/blackjack.cpp:662-765 | in every run, whatever the lounge does in between, the seats are those of a run of the game: the operations of the handlers in the order they were posted, and nothing else |
| `TableStrand.LoungeKeepsInv` | server/core/channel.cpp:87-118 | every membership step keeps the table's invariant, including disconnects and reuse of an address |
| `TableStrand.DispatchKeepsInv` | server/core/blackjack.cpp:572-603 | so does every dispatched request except `play` of a non-member |
| `TableStrand.RunKeepsInv` | server/core/blackjack.cpp:662-765 | so does running the next posted handler |
| `TableStrand.PlayNeedsMembership` | server/core/blackjack.cpp:572-578 | no weaker discipline keeps the inductive invariant: dispatching `play` keeps it only if the user is a member |
| `TableStrand.EveryRunKeepsInv` | server/core/blackjack.cpp:554-765 | the invariant holds in every state of every run in which only members send `play` |
| `TableStrand.SeatsBelongToMembers` | server/core/blackjack.cpp:554-687 | in every state of such runs each occupied seat belongs to a user who is a member, is being erased, or has its `do_erase` queued |
| `TableStrand.SeatsAccountedIffJoined` | server/core/blackjack.cpp:572-687 | when the strand is idle and a seat is open, dispatching and running a `play` leaves every seat so accounted for if and only if its sender is a member |
| `TableStrand.MembersKeepTheirSeats` | server/core/blackjack.cpp:662-687 | in every such run a player that is still in the session in which it took its seat still has that seat |
| `TableStrand.DrainedSeatsAreCurrent` | server/core/blackjack.cpp:662-687 | when the strand has run dry every seat is held by a live user in its current session, even if the address was reused |
| `TableStrand.EraseHitsItsOwnSession` | server/core/blackjack.cpp:662-668 | `do_erase`, which carries a bare address, only vacates the seat taken in the session whose end posted it |
| `TableStrand.CallHitsItsOwnSession` | server/core/blackjack.cpp:689-722 | in every run in which only members send `play`, the seat that a posted `watch` or `bet` finds by its bare address was taken in the session the call was sent from, never by another user of that address and never for a sender who was no member |
| `TableStrand.EraseQueuedIffSessionOver` | server/core/blackjack.cpp:554-668 | a seat has its `do_erase` queued if and only if the session it was taken in is over |
| `TableStrand.FreedHolderIsQueued` | server/core/blackjack.cpp:563-570 | a seat that names freed storage has the `do_erase` that vacates it queued |
| `TableStrand.PlaySeatsItsUser` | server/core/blackjack.cpp:670-687 | running a queued `play` of an unseated user takes an open seat, in the session it was sent from |
| `TableStrand.UnjoinedPlayerSticks` | server/core/blackjack.cpp:670-687 | from every quiet state with an open seat a non-member can be seated, and nothing queued will end it |
| `TableStrand.SeatOfFreedUser` | server/core/blackjack.cpp:572-687 | for every address, some run from the start ends with an empty queue and a seat naming that address after its storage was freed |
| `TableStrand.HolderFreedFirst` | server/core/blackjack.cpp:563-570 | from every state, whatever is queued, a seated user that nothing keeps alive can be freed by steps of the lounge alone, before its `do_erase` runs |
| `TableStrand.CarefulRunsHaveNoFreedSeat` | server/core/blackjack.cpp:554-687 | in every run from the start in which no user is dropped while it holds a seat, no seat ever names freed storage, whoever sends `play` |
| `TableStrand.CarelessRunsCanFreeASeat` | server/core/blackjack.cpp:554-687 | every run in which a user is dropped while it holds a seat has a point from which steps of the lounge alone, dropping nobody else, make a seat name freed storage |
| `TableStrand.FreedIffDropped` | server/core/user.cpp:14-25 | in every state, such steps can make a given seat name freed storage if and only if its holder has been dropped |
| `TableStrand.FreedFirstIffUnreferenced` | server/core/blackjack.cpp:554-570 | how soon: a ready player can be dropped and freed before the strand runs its next handler if and only if no queued handler owns a pointer to it |
| `TableStrand.UpdateMeetsFreedSeat` | server/core/blackjack.cpp:611-621 | from every quiet state with such a player, a run in which only members send `play` brings the `start` of another user to the head of the queue while the player's seat names freed storage |
| `TableStrand.FreedSeatInDisciplinedRun` | server/core/blackjack.cpp:554-687 | for every address, a run from the start in which only members send `play` reaches a seat naming that address after its storage was freed |
| `Game.FindSpec` | server/core/blackjack.cpp:475-483 | `find` returns a player seat iff the user holds that seat |
| `Game.JoinSpec` | server/core/blackjack.cpp:337-359 | `join` is refused as already playing iff the user holds a seat, as no open seat iff it holds none and all five are taken, and otherwise gives the lowest open seat and changes nothing else |
| `Game.RunKeepsValid` | server/core/blackjack.cpp:337-431 | in every run seat 0 stays the dealer's, no user holds two seats and no seat is `waiting`, and no hand has more than 22 cards, since a run ends with the `start` that overflows one |
| `Game.DeadBranches` | server/core/blackjack.cpp:375-421 | hence `leave` never reports an opened seat and `bet` is never refused as too late |
| `Game.WaitingSeat` | server/core/blackjack.cpp:375-425 | what those branches would do: `leave` opens a waiting seat and reports 2, `bet` is refused as too late |
| `Game.RunConservesWorth` | server/core/blackjack.cpp:245-251 | chips plus wager of a seat stay what they were until a `leave` of the run clears it, and are 1000 in every later state |
| `Game.SeatChanges` | server/core/blackjack.cpp:337-431 | an operation leaves every other user's seat as it is and changes one's own exactly as asked: leaving clears it and keeps it, a bet moves 5 from chips to wager, surrender opens it with all else kept |
| `Game.SeatKeptUntilSurrender` | server/core/blackjack.cpp:361-406 | in every run a user keeps its seat until it surrenders, and a seat being left stays that way |
| `Game.RefusalsSpec` | server/core/blackjack.cpp:364-431 | `bet` is refused iff the user has no seat, `leave` iff it has none or is already leaving |
| `Game.UnclearedHand` | server/core/blackjack.cpp:498-505 | over every run that does not clear the seat, a hand gains every sixth card dealt, beginning with the first one to reach the seat |
| `Game.ClearedHand` | server/core/blackjack.cpp:375-382 | over every run that clears the seat, a hand ends up with its portion of the cards dealt after the last time: what a clearing `leave` gives back is the whole hand |
| `Game.StartFitsIff` | server/core/blackjack.cpp:498-505 | after any run from a new game, the next `start` is served if and only if the seat whose turn it is got fewer than 22 cards since it was last cleared |
| `Game.StartsFitExactly` | server/core/blackjack.cpp:498-505 | over every run without `leave`, with any joins, bets and surrenders, exactly 132 starts are served, and seat i holds every sixth card dealt from the i-th on |
| `Game.Game.FindSeat` | server/core/blackjack.cpp:475-483 | the loop computes the function characterised by `FindSpec` |
| `Game.Game.JoinGame` | server/core/blackjack.cpp:337-359 | updates the seats and answers as the function characterised by `JoinSpec` |
| `Game.Game.LeaveGame` | server/core/blackjack.cpp:364-393 | updates the seats and answers as the function in the run theorems |
| `Game.Game.SurrenderSeat` | server/core/blackjack.cpp:398-406 | opens the seat of a user who holds one, reports whether there was one |
| `Game.Game.PlaceBet` | server/core/blackjack.cpp:408-431 | moves 5 from chips to wager, or answers with the refusal |
| `Game.Game.DealOne` | server/core/blackjack.cpp:498-505 | gives the card to the seat whose turn it is and passes the turn round; throws if and only if that hand is full, and then has moved the turn without wrapping it |
| `Shoe.ShuffleIsBijection` | server/blackjack/game.hpp:42-49 | for every n >= 1 each arrangement of n positions is reached by exactly one sequence of choices |
| `Shoe.ShuffleStaysWithin` | server/blackjack/game.hpp:42-49 | every sequence of choices gives an arrangement of the same positions |
| `Shoe.StreamsReachAllChoices` | server/blackjack/game.hpp:45-46 | every sequence of choices comes out of some random stream |
| `Shoe.AnyTwoPasses` | server/blackjack/game.hpp:34-59 | for any two arrangements of the cards there is a random stream for which `shuffle` leaves the first and the reshuffle after dealing it out leaves the second |
| `Shoe.DealsAreFair` | server/blackjack/game.hpp:34-59 | from a fresh shoe of d decks, for every random stream, after N deals each card was dealt between d*floor(N/52d) and d*floor(N/52d)+d times |
| `Shoe.PassesAreComplete` | server/blackjack/game.hpp:34-59 | at every moment the cards dealt in the current pass plus those left are d copies of each card |
| `Shoe.ShoeObject.ShuffleCards` | server/blackjack/game.hpp:34-51 | the loops over the array leave the arrangement given by the stream's choices, with d copies of each card |
| `Shoe.ShoeObject.DealCard` | server/blackjack/game.hpp:53-59 | reshuffles when exhausted and deals the next card, which is one of 1..52 |
| `Hand.ValueSpec` | server/blackjack/game.hpp:84-93 | in each of the four suits the ranks 1 to 10 are worth their number and jack, queen and king ten; only rank 1 is an ace; the hole card is worth nothing |
| `Hand.CodesSpec` | server/blackjack/game.hpp:84-93 | aces are exactly the cards 1, 14, 27, 40, and cards worth ten exactly 10-13, 23-26, 36-39, 49-52 |
| `Hand.TotalIsBest` | server/blackjack/game.hpp:95-117 | the greedy total is attained by some choice of 1 or 11 per ace, no choice of at most 21 exceeds it, and when it is over 21 so is every choice and all aces count 1 |
| `Hand.SoftTotal` | server/blackjack/game.hpp:98-115 | at most one ace counts 11, exactly when there is an ace and the low total is at most 11 |
| `Hand.TotalIgnoresOrder` | server/blackjack/game.hpp:95-117 | the total is the same for every order of the same cards |
| `Hand.BlackjackIsAceAndTen` | server/blackjack/game.hpp:95-122 | two cards make 21 iff one is one of the cards 1, 14, 27, 40 and the other has rank ten, jack, queen or king |
| `Hand.AtMostTwentyCards` | server/blackjack/game.hpp:67-67 | a hand dealt until done has at most 20 cards, whatever is dealt |
| `Hand.TwentyCardsHappen` | server/blackjack/game.hpp:67-67 | and 20 are possible |
| `Hand.HoleCardIsFree` | server/blackjack/game.hpp:66-67 | a hole card in front changes no total, so such a hand fits the buffer as well |
| `Hand.HandObject.Eval` | server/blackjack/game.hpp:95-122 | the two loops set `busted`, `twenty_one` and `blackjack` according to the total above |
| `Hand.HandObject.DealFrom` | server/blackjack/game.hpp:124-129 | takes the shoe's next card, appends it and re-evaluates; throws if and only if the buffer is full, with the card taken and the hand as it was |
| `Hand.HandObject.PlayOut` | test/server/blackjack.cpp:75-76 | dealing until done terminates within 20 cards even when the shoe reshuffles, so `deal` never throws on the way |
| `WriteQueue.EveryRunIsValid` | server/core/ws_user.cpp:207-246 | over all interleavings of sends and completions at most one write is outstanding, its index is in range and names its message, no assertion fails, and accepted messages are the written plus the queued ones as multisets |
| `WriteQueue.OfferedIsAccepted` | server/core/ws_user.cpp:207-216 | the accepted messages are exactly those sent while the socket was open, in order |
| `WriteQueue.FailureIsFinal` | server/core/ws_user.cpp:231-246 | after a failed write nothing is ever written again and everything stays queued |
| `WriteQueue.WriteOrder` | server/core/ws_user.cpp:218-246 | for m0..m(n-1) with m0 in flight and no arrivals, n completions empty the queue and the order is m0, m(n-2), .., m1, m(n-1) |
| `WriteQueue.EachCompletionWritesOne` | server/core/ws_user.cpp:231-246 | k completions leave n - k messages, so no fewer than n empty the queue |
| `WriteQueue.WrittenIffQueueShrinks` | server/core/ws_user.cpp:207-246 | over every run, a message below the one being written is put on the wire if and only if arrivals and completions bring the length down to its position; until then it stays where it is |
| `WriteQueue.CompletionSettles` | server/core/ws_user.cpp:231-246 | after any successful completion every other message is next on the wire or below the one that is: the last one in the place of the one written, the others where they were |
| `WriteQueue.FirstMessageStarves` | server/core/ws_user.cpp:218-246 | with one arrival per completion the first of two queued messages is never written, for any number and choice of arrivals, while all the others are |
| `WriteQueue.ThirdMessageStarves` | server/core/ws_user.cpp:207-246 | this is reached from a new session: of messages a, b, c and then one arrival per completion, c is never written |
| `WriteQueue.Session.Send` | server/core/ws_user.cpp:207-216 | the field update is the `Send` event of the run theorems and keeps the invariant |
| `WriteQueue.Session.Complete` | server/core/ws_user.cpp:231-246 | the swap, resize and next write are the `Finish` event of the run theorems and keep the invariant |
| `SharedBuffer.EveryRunKeepsInv` | server/core/message.hpp:62-137 | the invariant over all handles and blocks survives every interleaving of construct, copy, move, swap, decrement and deallocate |
| `SharedBuffer.ReleasedOnceAfterLastHandle` | server/core/message.hpp:62-118 | in every run the count is the number of live handles, no freed block is touched, a block is freed at most once, after its last handle, with the number of units it was allocated with, which hold its header and payload, and is not leaked |
| `SharedBuffer.BlockHoldsItsBytes` | server/core/message.hpp:81-105 | in every run a block constructed from some bytes holds exactly those bytes ever after, in the least number of units that fits them and the header, and it is that number that is released |
| `SharedBuffer.HandlesFollow` | server/core/message.hpp:53-137 | what each handle refers to after each operation; handles not named by it keep what they had |
| `SharedBuffer.LifeOfAMessage` | server/core/message.hpp:53-137 | for any payload, constructing, copying, moving, swapping and destroying can all be carried out and end with the block released |
| `SharedBuffer.CopyThenDestroy` | server/core/message.hpp:62-118 | a copy refers to the same block, and destroying it restores the whole state |
| `SharedBuffer.MoveThenMoveBack` | server/core/message.hpp:107-111 | a move hands the block over without touching it, and moving back restores the whole state |
| `SharedBuffer.SwapTwice` | server/core/message.hpp:132-137 | a swap exchanges the blocks, and a second one restores the whole state |
| `SharedBuffer.UnitsFit` | server/core/message.hpp:93-97 | for all n >= 0 and header size S >= 1 the units allocated hold header and payload with fewer than S bytes spare |
| `SharedBuffer.Heap.CopyConstruct` | server/core/message.hpp:113-118 | the update is the `Copy` event and keeps the invariant |
| `SharedBuffer.Heap.MoveConstruct` | server/core/message.hpp:107-111 | the update is the `Move` event and keeps the invariant |
| `SharedBuffer.Heap.SwapHandles` | server/core/message.hpp:132-137 | the update is the `Swap` event and keeps the invariant |
| `SharedBuffer.Heap.DestroyHandle` | server/core/message.hpp:62-64 | the update is the `Destroy` event; the caller must deallocate iff it dropped the last reference |
| `SharedBuffer.Heap.ReleaseBlock` | server/core/message.hpp:65-71 | the update is the `Release` event and keeps the invariant |
| `Shutdown.CeilIsLeastUpper` | server/core/utility.hpp:30-42 | `ceil` is the least number of whole seconds not below the duration, for either sign |
| `Shutdown.FewAnnouncements` | server/core/server.cpp:308-364 | a countdown of k seconds announces strictly decreasing positive values at most ceil(k/10) times, in every run |
| `Shutdown.CountdownReachesStop` | server/core/server.cpp:328-364 | in every run of a countdown at r seconds, whatever else happens, ceil(r/10) completed waits have led to stop |
| `Shutdown.CountdownNeverStalls` | server/core/server.cpp:328-364 | until then a wait is always outstanding and completes once its time has come |
| `Shutdown.UndisturbedShutdown` | server/core/server.cpp:308-364 | `shutdown(k)` followed by punctual timers and nothing else announces k, k-10, k-20, .. and stops exactly k seconds later, for every k >= 1 |
| `Shutdown.UndisturbedSignal` | server/core/server.cpp:366-382 | a first signal followed by punctual timers announces 30, 20, 10 and stops exactly 30 seconds later |
| `Shutdown.NeverEarly` | server/core/server.cpp:308-378 | a countdown never stops the server before its deadline, whether in the timer's handler, in `shutdown` or in the handler of the first signal |
| `Shutdown.StopsWithinASecond` | server/core/server.cpp:328-364 | with punctual timers and handlers that take no time, the countdown stops the server less than a second after the deadline |
| `Shutdown.StopAndDeadlineAreFinal` | server/core/server.cpp:308-418 | over every run `stop_` never reverts and the deadline of a countdown under way never changes |
| `Shutdown.TwoSignalsStop` | server/core/server.cpp:366-390 | two delivered signals lead to stop, whatever else happens |
| `Shutdown.ListensUntilStopped` | server/core/server.cpp:252-382 | in every run a server that runs and has not stopped waits for signals, during a countdown too |
| `Shutdown.TwoSignalsArrive` | server/core/server.cpp:366-390 | so in every such state two signals can be delivered one after the other, and have then stopped it |
| `Shutdown.SecondSignalIsLast` | server/core/server.cpp:384-390 | a signal during a countdown stops the server and is the last one handled, in every run after it |
| `Shutdown.StopIsObeyed` | server/core/server.cpp:392-418 | in every run an executed `stop` has stopped the server |
| `Shutdown.StopSilences` | server/core/server.cpp:412-418 | stopping a countdown cancels its waits: in every run after it no timer and no signal is handled and nothing is announced |
| `Shutdown.ServicesStartAndStopOnce` | server/core/server.cpp:232-280 | in every run the services started are exactly those inserted before `run`, in order and once each, and the same are stopped when `run` ends, which is only after `stop_` |
| `Shutdown.EveryRunKeepsInv` | server/core/server.cpp:232-418 | although each announcement adds a wait, at most one is outstanding, and one is as long as a countdown goes on, in every run |
| `Shutdown.Server.AddService` | server/core/server.cpp:232-240 | adds the service, or throws and changes nothing once running; keeps the invariant |
| `Shutdown.Server.Begin` | server/core/server.cpp:242-259 | starts every service in order, or throws and changes nothing once running; keeps the invariant |
| `Shutdown.Server.End` | server/core/server.cpp:272-280 | stops every service in order; keeps the invariant |
| `Shutdown.Server.TimerHandler` | server/core/server.cpp:328-364 | the field updates are the `Timer` event of the run theorems and keep the invariant |
| `Shutdown.Server.RequestShutdown` | server/core/server.cpp:308-326 | the field updates are the `ShutDown` event of the run theorems and keep the invariant |
| `Shutdown.Server.SignalHandler` | server/core/server.cpp:366-390 | the field updates are the `Signal` event of the run theorems and keep the invariant |
| `Shutdown.Server.RequestStop` | server/core/server.cpp:392-418 | the field updates are the `Stop` event of the run theorems and keep the invariant |
| `Rpc.ExtractIffWellFormed` | server/core/rpc.cpp:120-249 | `extract` succeeds iff the request is well-formed member by member, and then holds exactly what the request says |
| `Rpc.ExtractKeepsId` | server/core/rpc.cpp:135-141 | a supplied id is kept on every later error |
| `Rpc.CodeSpec` | server/core/rpc.cpp:120-249 | each error code is reported iff the request meets the condition that belongs to it, one condition per code |
| `Rpc.RpcCall.ExtractFrom` | server/core/rpc.cpp:120-249 | filling in the fields step by step gives the result and error characterised above |
| `Rpc.Version1NeverReachesAChannel` | server/core/channel_list.cpp:101-118 | every well-formed version 1 request is refused by routing with invalid params |
| `Rpc.RouteSpec` | server/core/channel_list.cpp:101-118 | a request is refused as invalid iff malformed, leaves the loop in an exception iff its cid does not convert, and reaches a channel, as what it means, iff it is addressed to one |
| `Rpc.NumberCastSpec` | server/core/channel_list.cpp:104-107 | a cid converts iff it is a whole number from 0 to 2^64 - 1, and to that number |
| `Rpc.TargetIff` | server/core/channel_list.cpp:104-118 | a request reaches a channel iff its "cid" is that channel's number and the channel exists |
| `Rpc.StringCidEscapes` | server/core/channel_list.cpp:104-107 | any method with a string as cid and an id is a well-formed request that asks for a reply and does not convert |
| `Requests.Decide` | server/core/ws_user.cpp:128-141 | whatever a request makes a user begin is an operation of that user that the lounge allows at that moment |
| `Requests.DecisionSpec` | server/core/channel.cpp:127-170 | method not found is answered iff the channel does not know the method, invalid request iff the request is malformed; only game calls addressed to the table are posted; only a bad cid escapes |
| `Requests.BeginSpec` | server/core/channel.cpp:127-170 | `join` begins iff the user has a name and is not listed, `leave` iff it is listed, `identify` iff sent to System with a string of at most 20 bytes by a user without a name, each for the channel and name in the request |
| `Requests.PostSpec` | server/core/blackjack.cpp:572-603 | each of the handlers is posted iff the request calls "play", "watch", "bet", "start", or "hit" or "stand", of channel 3 |
| `Requests.AnswerSpec` | server/core/room.cpp:47-86 | `say` and `slash` succeed iff the user has a name, is listed and sent a string "message"; `shutdown` and `stop` always do; nothing else is answered with success at once; method not found iff the method is none of the channel's |
| `Requests.StepKeepsInv` | server/core/ws_user.cpp:125-141 | every received request, step of the lounge and posted handler keeps the invariant over requests, calls under way, replies, lounge and table |
| `Requests.EveryRunKeepsInv` | server/core/ws_user.cpp:125-141 | so does every interleaving of them |
| `Requests.EveryRequestAnsweredOnce` | server/core/rpc.cpp:251-273 | in every run a request with an id has exactly one reply, or none and exactly one call under way, until the process ends; after that it has exactly one, except exactly when it was the request that ended the process or had its call under way at that step, when it has none; a request without an id has no reply (sections 4.1 and 5 of the JSON-RPC 2.0 Specification) |
| `Requests.EveryCallAccounted` | server/core/ws_user.cpp:125-141 | in every run a request has one call that was answered or is under way, except exactly a cid that does not convert and a `start` run for a full hand, which have neither |
| `Requests.RepliesAreTruthful` | server/core/rpc.cpp:251-273 | in every run each reply goes to the user that asked, carries the id it gave, and its code fits the request |
| `Requests.ThrownIff` | server/core/blackjack.cpp:724-739 | over every run, a call's own exception ends the process iff its cid does not convert or its `start` was run for a full hand |
| `Requests.StrandServesInOrder` | server/core/blackjack.cpp:540-547 | over every run, a posted call with j handlers before it is served after exactly j + 1 have run, and until then is that much closer to the head |
| `Requests.WorkDescends` | server/core/channel.cpp:153-170 | every step of a user whose `join`, `leave` or `identify` is under way ends it or leaves strictly less to do |
| `Requests.SucceedsIffTookEffect` | server/core/channel.cpp:153-170 | in every run, `join`, `leave` and `identify` are answered with success iff they made the user a member, ended its membership, or gave it the name |
| `Requests.SuccessIsComplete` | server/core/channel.cpp:59-118 | at the moment that success is reported both sets show it |
| `Requests.SuccessIsShown` | server/core/channel.cpp:153-170 | whatever step sends it, a success reply to `join`, `leave` or `identify` is sent when both sets show what was asked for, not before |
| `Requests.GameCallSucceedsIff` | server/core/blackjack.cpp:670-765 | `play` is answered with success iff it took a seat, `watch` iff it turned a playing seat into a leaving one, `bet` iff it raised the wager by 5, `start` iff it dealt the card to the seat whose turn it was and passed the turn on |
| `Requests.BadCidUnanswered` | server/core/channel_list.cpp:101-107 | in every state, a request with an id and a cid that does not convert gets no reply and leaves no call under way |
| `Requests.StringCidUnanswered` | server/core/channel_list.cpp:101-107 | so from the start, for any user, id, method and text |
| `Requests.FullHandUnanswered` | server/core/blackjack.cpp:724-739 | in every state, a `start` with an id at the head of the strand gets no reply and leaves no call under way if the hand is full |
| `Requests.LastStartUnanswered` | server/core/blackjack.cpp:724-739 | so from the start: of 133 requests to `start` by one user, all with an id, 132 are answered and the last is not |
| `Requests.BystanderUnanswered` | server/core/server.cpp:262-269 | in every state, a request whose call is under way when either exception ends the process is left without a reply, and nothing can happen any more |
| `Requests.GoodRequestUnanswered` | server/core/server.cpp:262-269 | so from the start: any game call of one user, with an id and addressed to the table, followed by a bad cid of another, is never answered |

## Left out

- `http_session.cpp`, `listener.cpp`, TLS and the socket layer: plumbing over Asio and Beast.
- JSON text, message formatting and the `to_json` functions: replies and broadcasts are values with the fields that matter.
- The broadcast of `say`, and what `shutdown` and `stop` do once answered, are not part of `Requests.dfy`; `Channel.Send` and `Shutdown.dfy` model them by themselves.
- Whether a reply reaches the client: a reply counts as sent when `user::send` is called; the socket and the queue behind it are in `WriteQueue.dfy`.
- What the program does after reading freed storage: the runs that get there are shown, and go on in the model as if the read were harmless.
- Broadcasts made by the table's strand (`update`) and by the server's timer: in `Membership.dfy` only users in the middle of `insert` or `erase` take snapshots and hold strong pointers; what the others read from a channel's list is covered by `NoDanglingMember`, and the pointers they hold can only delay a disconnect.
- Null messages: `make_message` returns one when a message exceeds 16384 bytes, and sending it is not modelled.
- Calls posted to a strand from outside it (`shutdown`, `stop`) are modelled when they are executed, not when they are posted.
- Destruction of channels and of the channel list at process exit, and `channel_list::insert`, `erase`, `next_uid`, `next_cid`: easy members, and channels live for the whole run.
- The `hand` of `blackjack.cpp`: its `eval` sums raw card codes and is never called; the hand of `game.hpp` is modelled.
- `hit`, `stand`, `tick` and the `game` template of `game.hpp`: they have no behaviour yet.
- Integer widths: ids, chips and times are unbounded.
- Statistical quality of `rand()`: the stream is arbitrary.
- Fairness of scheduling: termination of `~user`, of requests and of the countdown is proved for the steps they take, not that the scheduler lets them run.
