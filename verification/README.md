# A verified model of the networked Pong

This project models the Pong server, its clients and the small library below them, and proves properties of the model with Dafny.
`dafny verify dfyconfig.toml` checks all of it.

The model follows the program file by file. What the C code updates in place is a class here (the byte array, the doubly linked queue,
the server's and the client's static state), its loops are loops with invariants, and each method is proved against a function
or relation of the old and new state. The properties are then proved about these functions, and over whole runs about a step relation.

- **The ball** (`Vectors`, `Engine`, `Collision`, `CollisionTests`, `BallLoop`, `BallTick`). The swept tests and the bounce loop as
  written: plane coordinates and durations lose their fraction at `int` parameters, the time of impact is a fraction of the
  tick although it is added to a millisecond counter, goal lines are swept with the remaining time and everything else with the whole
  tick, and the paddle stands still during a sweep. Proved: what each test means geometrically (`Collision`, `PaddleContact`),
  and for which paddles it is exact (`PaddleFractions`), an explicit bound on the bounces of a tick (`BounceBudget`), when the
  ball stays between the walls (`WallContainment`) and a match in which it does not (`MatchTie`), how long it flies (`FlightTime`,
  `LateTick`), how fast after how many bounces (`BounceSpeed`), that it meets the paddles where they stood before the tick or frame
  (`StandingPaddles`), and what holds of the ball in every reachable state of a match (`BallInPlay`). `Opening` and `FreeFlight` bring a match to
  the states these examples need.
- **The protocol** (`Game`, `GameServer`, `GameClient`, `Match`). One room, two clients, FIFO channels; each handler is one step. Proved
  for every run: STATE packets find the client in their round, the score counts the rounds, inputs are conserved and credited
  to the player who typed them (`Agreement`); both clients stay on the server's court although a STATE says nothing of it (`Courts`); and
  between packets a client's opponent coasts (`Coasting`).
  Proved exactly: prediction agrees with authority, and no input crosses a goal, along those runs in which the eight-bit sync does
  not confuse two rounds (`Prediction`); a run in which it does (`StaleInput`, with the tick of `GoalShot`). `FineGrained` takes the protocol
  apart into critical sections; `FineRaces` says exactly which races bring input across a goal, and `FineHeights` exactly which sections
  put prediction and authority apart, the atomic view hiding both. `BlankBall` says when a client's ball has its size.
- **The wire** (`FixedPoint`, `Bytes`, `BinArray`, `Packets`, `WireFormat`, `Codec`, `Stream`). Fixed-point floats, network byte order, the
  layout of every packet, the cursor buffer with the back-patched length, and partial sends and receives under any schedule of the network.
- **The lobby** (`TsQueue`, `Server`, `Matchmaking`, `WakeUp`). A linked list on the heap that refines a sequence, pairing,
  disconnection, and the interleavings of acceptor, connection threads and matcher.
- **Time** (`RunEvery`). The loop that calls a tick and supplies its time step.

Numbers are exact: C's floats are real numbers here, and dividing by a displacement of zero counts as no hit. `sqrtf` appears as
a value carried along with the ball and tied to its velocity by `h * h == vx * vx + vy * vy` and `h >= 0`. The clock, the network,
the keyboard, the random direction of a fresh ball and the socket numbers are parameters, and everything is proved for all their values.

## Where the code does not do what one would expect

- A ball that reaches a paddle's vertical edge and a wall at the same moment is left at the wall, flying into it, and what remains of the tick takes it outside (`WallContainment.TieEndsOutside`). This happens in a match of 16-millisecond ticks, to a serve that flies 31 up for every 45 across toward a raised paddle (`MatchTie.MatchHasTie`).
- The paddle test is exact for balls of the game's size and speeds only if the paddle's edges are whole numbers, and paddles move in half pixels (`PaddleFractions.RightIffWholeEdges`).
- A tick with bounces does not in general fly for as long as it lasts (`FlightTime.TickIsOnTimeIff`): a bounce off the wall makes one of 16 milliseconds fly for 29 and two thirds (`LateTick.MatchHasLateTick`).
- After 256 goals an input of the first round is current again (`StaleInput.OldInputIsTaken`).
- Three races let input cross a goal (`FineRaces.RacesAreReal`), and a frame while the client takes an INIT moves the fresh paddle by input that is then thrown away (`FineHeights.EarlyFrameDrifts`).
- A goal predicted by the client alone takes the ball's size away until the next INIT (`BlankBall.SizeTellsPredictedGoals`, `BlankBall.BlankWithoutGoal`).

## Model

| member | source | states |
|---|---|---|
| Prediction.PredictionAgrees | src/client/client_logic.c:35-79 | in every match whose packets lag by fewer than 256 rounds, a client's own paddle and the server's copy of it differ by exactly half a pixel per millisecond of input not yet applied, although no snap ever writes that paddle; once all is applied they are level, and a client that lags behind faces a reset paddle without input |
| Prediction.PredictionAgreesIffLevel | src/server/server_main.c:63-166 | for every run: heights agree in every state of it if and only if no step takes a stale nonzero amount for a current one |
| Prediction.NoInputCrossesIffTimely | src/server/server_main.c:131-166 | for every run: whatever the server holds was typed in the round it will be applied in, in every state, if and only if no step takes a stale nonempty input for a current one |
| Prediction.NoInputCrosses | src/server/server_main.c:131-166 | in every match whose packets lag by fewer than 256 rounds, whatever the server holds was typed in the round it will be applied in |
| Prediction.SyncDecidesRounds | src/server/server_main.c:142-149 | the int8 comparison is equality of rounds up to a multiple of 256, hence exact within a lag of 255 |
| Prediction.LittleLagSuffices | src/server/server_main.c:142-149 | a lag below 256 at every receipt makes a run meet both conditions above |
| Prediction.ReceiveKeepsHeightsIff | src/server/server_main.c:142-163 | one receipt keeps the heights in agreement exactly when a stale amount is zero |
| Prediction.StepDecides | src/client/client_logic.c:67-176 | one step of any kind: what keeps agreement and purity, and what breaks them, exactly |
| StaleInput.OldInputIsTaken | src/server/server_main.c:101-107 | some run of 256 goals ends with six seconds of the first round counted in round 256: neither pure nor in agreement |
| GoalShot.ShotScores | src/common/cpong_logic.c:199-227 | the concrete tick used there: off the upper wall, between the paddles, over the right line |
| Agreement.StateArrivesInItsRound | src/client/client_logic.c:67-98 | in every run a STATE reaches its client in the round it was sent in, with the client's own sync, so ignoring its sync is sound; afterwards ball and opponent move as the sending tick had them, quantised, the server's state is kept as received, and own paddle, score, sync and pending input are untouched |
| Agreement.InitStartsTheNextRound | src/client/client_logic.c:99-116 | in every run an INIT takes its client exactly one round on, with that round's sync, the paddle at its reset height, no pending input and the index it joined with |
| Agreement.ScoreIsTheRound | src/server/server_main.c:101-115 | in every run the two scores add up to the rounds, of which sync is the low byte, and a joined client shows the score the server had at the client's round |
| Agreement.InputIsConserved | src/server/server_main.c:73-84 | in every run the milliseconds typed are those pending, discarded on INIT, in flight, rejected, waiting at the server and drained |
| Agreement.InputReachesItsPlayer | src/server/server_main.c:155-163 | in every run an accepted input of a client, identified by the id it connected with, is added to the input that steers this client's paddle and to nothing else, and a refused one to nothing |
| Agreement.StrangersAreIgnored | src/server/server_main.c:142-163 | in every run a packet of any other id, or of any other type, changes nothing |
| Courts.ClientsShareTheCourt | src/client/client_logic.c:67-116 | in every run, through STATEs, INITs, frames and goals: server and joined clients play on the same court, box 480 by 320, the paddles 10 by 50 at 475 and 5 across, moving up and down only, between the two clients that connected; and each client's own index names the id it connected with |
| Courts.InitIsKickoff | src/common/cpong_logic.c:48-63 | in every run an INIT puts a client at the kickoff: both paddles still at 160, the ball of size 10 at (240, 160) with the server's serve, quantised |
| Courts.GoalCountsForTheOther | src/server/server_main.c:100-103 | in every run a goal is scored over the line behind one paddle, in the last sweep of the tick, and adds a point for the client that plays the other |
| Coasting.FrameMovesPaddles | src/client/client_logic.c:41-51 | a frame drives the own paddle half a pixel per millisecond in the direction of the keys, and moves the opponent's by its vertical velocity times the length of the frame, keeping that velocity |
| Coasting.OpponentCoasts | src/client/client_logic.c:43-51 | over any run without a packet to a client the opponent it shows has moved by its velocity times the milliseconds of all its frames, whatever server and other client do meanwhile |
| Coasting.OpponentCoastsFromState | src/client/client_logic.c:67-79 | so after a STATE and frames of d milliseconds in all the opponent is shown at the sent height plus d times the sent velocity, both quantised |
| Coasting.OpponentWaitsAfterInit | src/client/client_logic.c:101-106 | and after an INIT it stays at 160 until the next packet |
| StandingPaddles.TickMeetsStandingPaddles | src/server/server_main.c:86-96 | a tick's ball can fare exactly as it can among the paddles as they stood before the tick |
| StandingPaddles.TickIgnoresInput | src/server/server_main.c:73-96 | two servers with the same game and any inputs give a tick's ball the same fates |
| StandingPaddles.TickContactTouches | src/common/cpong_logic.c:103-161 | whatever a tick drains, a paddle hit in it is a contact with the paddle at its place before the tick |
| StandingPaddles.FrameFliesLikeTick | src/client/client_logic.c:53-62 | a client that sees the paddles where the server has them predicts, of any ball, exactly what the server would compute in a tick of the same length, whatever the two players are typing, and shows the same ball after it |
| StandingPaddles.ReceiptMovesNoBall | src/server/server_main.c:73-163 | an input received just before a tick changes neither which outcomes the tick can have nor ball and score after it |
| GameServer.DrainedMovesHalfPerMs | src/server/server_main.c:73-84 | draining moves a paddle half a pixel per accumulated millisecond, with the sign of the amount, and leaves it with the velocity of that sign, or none |
| GameClient.DrivenMovesHalfPerMs | src/client/client_logic.c:35-50 | predicting moves the own paddle half a pixel per typed millisecond |
| GameServer.Server.SendState | src/server/server_main.c:63-129 | a tick drains both inputs, flies the ball one complete flight in the arena of the tick (with the paddles where they were, by `StandingPaddles`), and broadcasts STATE, or after a goal the reset game with the next sync as INIT |
| GameServer.Server.OnInputReady | src/server/server_main.c:131-166 | only an INPUT of the current sync from one of the two players counts, for that player |
| GameServer.Server.StartPongGame | src/server/server_main.c:188-206 | both first INITs carry the same reset game with the two ids in order and no score, and differ in the index only; sync and inputs are left as they were |
| GameClient.Client.ServerStateReceive | src/client/client_logic.c:81-122 | STATE snaps (what that moves and what not is said by `Agreement.StateArrivesInItsRound` and `Courts.ClientsShareTheCourt`), INIT replaces all but the own index, writes sync and clears the input, anything else is an error |
| GameClient.Client.Update | src/client/client_logic.c:228-270 | a frame accumulates the keys' time and predicts with it: the own paddle by the keys, the opponent by its velocity (`Coasting.FrameMovesPaddles`), the ball by one complete flight |
| GameClient.Client.NetworkUpdate | src/client/client_logic.c:133-155 | sends sync and amount, and clears the amount |
| GameClient.Client.Join | src/client/client_main.c:99-121 | only an INIT starts a client, with its sync and a score of 0:0 |
| FineGrained.FineRunIsConsistent | src/client/client_logic.c:99-116 | with every critical section a step of its own, in every interleaving: a client takes a STATE only in its own round and with its own sync, and the ledger balances, packets in threads' hands included |
| FineRaces.ServerCleanIffCrossingFree | src/server/server_main.c:73-163 | for every interleaving: whatever the server has checked, credited and is about to drain was typed in its current round, all along the run, if and only if no goal is counted over input checked or credited since the drain, and no nonempty letter of the current sync is taken that is of another round, or early (its oldest input typed before its sync was written) |
| FineRaces.CleanIffRaceFree | src/client/client_logic.c:108-115 | for every interleaving: besides that no letter anywhere is early, all along the run, if and only if no goal is counted too early, no letter of another round is taken, and no letter is collected between writing the sync and clearing the input with older input in it |
| FineRaces.FineRunIsSound | src/client/client_logic.c:133-155 | in every interleaving from the start of a match: input and letters are in order of typing, none is from a later round, and the client holds older input only between writing the sync and clearing the input |
| FineHeights.LevelIffUndisturbed | src/client/client_logic.c:99-115 | for every interleaving: the client's and the server's copy of a paddle agree up to what is underway, all along the run, if and only if no section of it is one of four: a frame while the client takes the current INIT, a collection of older input under the new sync, a goal counted over input checked or credited since the drain, or a letter of another round taken for a current one (each of a nonzero amount) |
| FineHeights.LevelMeansSameHeight | src/client/client_logic.c:67-79 | with nothing underway the two copies are then at the same height |
| FineHeights.EarlyFrameDrifts | src/client/client_logic.c:101-115 | a frame while the client takes an INIT, and no other race, leaves the copies ten half pixels apart with nothing underway |
| FineRaces.RacesAreReal | src/client/client_logic.c:108-115 | each of the three races can happen, and each ends with ten milliseconds of the first round in the server's hands in the second |
| BlankBall.SizeTellsPredictedGoals | src/client/client_logic.c:52-79 | in every run: a joined client's ball has the size of the server's if and only if no frame since the client entered its round ended in a goal, and has no size otherwise |
| BlankBall.BlankWithoutGoal | src/client/client_logic.c:52-65 | a state is reachable in which a client's ball has no size, while the server is in the same round and has seen no goal |
| BlankBall.BlankForTheRound | src/client/client_logic.c:67-79 | however many frames and packets later, in the same round such a ball still has no size |
| BounceBudget.FlightIsBounded | src/common/cpong_logic.c:203-226 | no tick of any ball, paddles, walls and length bounces more often than an explicit budget: two hits on one axis are a whole number minus the ball's size apart, and that takes time |
| BounceBudget.BudgetOfGameBall | src/common/cpong_logic.c:203-226 | the budget for the game's ball in closed form |
| BounceBudget.OutcomeIsUnique | src/common/cpong_logic.c:199-227 | a tick has one flight and one outcome |
| BallTick.BallAdvance | src/common/cpong_logic.c:199-227 | terminates within the budget; runs exactly one flight of the loop, ends for the reason given, and leaves the output ball alone on a goal |
| BallTick.BallBounceOnCollision | src/common/cpong_logic.c:183-197 | mirrors the velocity; a ball of speed at most 0.63 leaves with the same slope and its speed raised by exactly 0.01, a faster one with both components' magnitudes unchanged |
| BallLoop.FlightStretches | src/common/cpong_logic.c:183-197 | over any number of bounces both velocity components and the speed grow by one common factor, at least 1, to at most the larger of 0.64 and the initial speed |
| BallLoop.StretchingKeepsSlope | src/common/cpong_logic.c:183-197 | a velocity stretched this way keeps its slope and is never slower, and no component becomes or stops being zero |
| BallLoop.BounceKeepsIsSpeed | src/common/cpong_logic.c:186-196 | the carried speed stays the length of the velocity |
| BallLoop.BounceAddsOneHundredth | src/common/cpong_logic.c:183-196 | for every velocity and normal: up to 0.63 a bounce raises the length of the velocity by exactly 0.01, keeps its slope and turns the component along the normal; above, it is the mirror image |
| BounceSpeed.FlightCountsBounces | src/common/cpong_logic.c:183-226 | a ball that was served and has bounced n times, over a flight of k bounces, ends at speed 0.05 + 0.01 * min(n + k, 59) |
| BounceSpeed.RallyCountsBounces | src/common/cpong_logic.c:183-227 | the same over any number of ticks without goal, of any lengths and with any paddles |
| BounceSpeed.ReachableSpeed | src/common/cpong_logic.c:183-197 | in every reachable state the server's ball has one of the sixty speeds 0.05, 0.06, ..., 0.64 |
| BallLoop.SelectedIsEarliest | src/common/cpong_logic.c:205-213 | of the four impacts the earliest counts, and of several at once the first in the order right paddle, left paddle, walls, goals; that a goal at the same moment still is one is `BallInPlay.PassScoresIff` |
| WallContainment.BounceKeepsWallSafeIff | src/common/cpong_logic.c:203-222 | a bounce leaves the ball between the walls, flying inward at a wall, exactly when it is not a corner tie |
| WallContainment.FlightStaysInsideIff | src/common/cpong_logic.c:203-226 | every state of a flight is between the walls, and flying inward where it touches one, if and only if none of its bounces is a corner tie |
| WallContainment.FlightStaysWithinIff | src/common/cpong_logic.c:203-226 | by position alone: every state of a flight is between the walls if and only if no bounce but possibly the last is a corner tie |
| WallContainment.BounceStaysWithin | src/common/cpong_logic.c:203-222 | one bounce alone never takes a ball from between the walls outside; it leaves it exactly at a wall and flying into it if and only if it is a corner tie |
| WallContainment.TieEndsOutside | src/common/cpong_logic.c:203-226 | a tick whose last bounce is a corner tie, with a millisecond or more remaining and no further impact, ends with the ball outside the walls |
| WallContainment.TickStaysInside | src/common/cpong_logic.c:203-226 | a tick that starts with the ball between the walls and has no corner tie ends with it there, the final partial move included |
| WallContainment.RallyStaysInside | src/common/cpong_logic.c:199-227 | over any number of ticks without goal or corner tie, of any lengths and with any paddles, the ball is between the walls after each |
| WallContainment.RallyStretches | src/common/cpong_logic.c:183-197 | over any number of ticks without goal: both velocity components and the speed grow by one common factor, to at most the larger of 0.64 and the initial speed |
| MatchTie.MatchHasTie | src/common/cpong_logic.c:199-227 | from the start of a match, for every serve of speed 0.05 that flies 31 up for every 45 across: a state is reachable whose next tick of 16 milliseconds starts with the ball between the walls, has a corner tie, and ends with the server's ball outside |
| MatchTie.TieTick | src/common/cpong_logic.c:103-171 | the tick itself, with its complete flight |
| FreeFlight.FreeMeetsNothing | src/common/cpong_logic.c:203-213 | a ball in the court that flies to the upper right and stays short of the right paddle's face and the upper wall meets nothing, whatever the paddles' heights |
| FreeFlight.FlyTicks | src/server/server_main.c:63-129 | so in a match it flies straight on, tick by tick, and reaches every state on its way |
| FlightTime.TickFliesFor | src/common/cpong_logic.c:199-226 | every tick without goal flies for its length plus its length times the sum of the times of impact minus that sum rounded up, in straight legs; once the sum has used up the tick, for its length times the sum |
| FlightTime.NothingAfterTime | src/common/cpong_logic.c:203-226 | once the counter has reached the length of the tick there is no bounce, no goal and no move |
| FlightTime.TickIsOnTimeIff | src/common/cpong_logic.c:199-226 | it flies for its length if and only if the sum times the length is the sum rounded up, or the used-up sum is one |
| FlightTime.LegIsStraight | src/common/cpong_logic.c:75-101 | from bounce to bounce the ball flies straight on, for that fraction of the tick |
| FlightTime.LongTickIsOnTimeIff | src/common/cpong_logic.c:199-226 | a tick of at least two milliseconds is on time if and only if it has no bounce or its times of impact add up to exactly one millisecond |
| FlightTime.FreeTickIsOnTime | src/common/cpong_logic.c:205-226 | a tick whose first pass meets nothing is on time |
| FlightTime.LateImpactIsNotOnTime | src/common/cpong_logic.c:223 | a tick whose first impact is later than one millisecond is not |
| LateTick.MatchHasLateTick | src/common/cpong_logic.c:223 | a state of a match is reachable whose next tick of 16 milliseconds has a ball that flies for 29 and two thirds |
| BallInPlay.MatchStaysBetweenWalls | src/server/server_main.c:86-105 | over a whole match, goals included, the ball is between the walls after every step, unless a tick has a corner tie |
| BallInPlay.TickIsAlwaysPossible | src/server/server_main.c:86-96 | in every reachable state of a match a tick of any positive length has an outcome |
| BallInPlay.TickBouncesAreBounded | src/server/server_main.c:86-96 | in every reachable state it bounces within the budget of the game's ball |
| BallInPlay.ReachableIsInPlay | src/common/cpong_logic.c:36-63 | in every reachable state the server's ball moves on both axes at a speed from 0.05 to 0.64 |
| BallInPlay.OnlyGoalsCount | src/server/server_main.c:100-107 | a goal adds one point to the player of its index and clears both inputs; no other step changes the score |
| BallInPlay.GoalCrossesItsLine | src/common/cpong_logic.c:173-181 | a tick that scores for index 0 (1) has the ball's leading edge on the left (right) goal line in its last sweep |
| BallInPlay.PassScoresIff | src/common/cpong_logic.c:203-219 | a pass of the loop scores if and only if a goal line is reached in what remains of the tick, at a fraction no later than that of any paddle or wall contact in the whole tick |
| BallInPlay.FirstPassScoresIff | src/common/cpong_logic.c:203-219 | in the first pass all sweeps are of the whole tick |
| Collision.WallImpactIsEarliest | src/common/cpong_logic.c:163-171 | a wall hit is reported if and only if the leading edge is on a wall at some moment of the sweep, and then the first such moment, with the ball's position at it |
| Collision.WallImpactIsFirstTouch | src/common/cpong_logic.c:89-101 | for a ball between the walls the same holds of all its edges: no earlier moment touches a wall |
| Collision.XImpactMeaning | src/common/cpong_logic.c:75-87 | a vertical plane is hit exactly at the fraction of the sweep at which the leading edge is on it |
| Collision.YImpactMeaning | src/common/cpong_logic.c:89-101 | the same for a horizontal plane |
| Collision.PaddleImpactTouches | src/common/cpong_logic.c:103-161 | for every ball and paddle, a reported hit puts the leading edge on a truncated edge of the paddle, where it stands now, with the boxes meeting on the other axis |
| Collision.PaddleImpactIsEarlier | src/common/cpong_logic.c:103-161 | of hits on a vertical and a horizontal edge the earlier counts, and at a corner the vertical one |
| PaddleContact.PaddleImpactIsFirstMeeting | src/common/cpong_logic.c:103-161 | for a ball that starts apart from a paddle with whole edges, a hit is reported if and only if the boxes meet during the sweep, at their first meeting: nothing tunnels through |
| PaddleFractions.RightIffWholeEdges | src/common/cpong_logic.c:103-161 | a paddle anywhere is handled rightly for every ball of size 10 that moves on both axes at a speed from 0.05 to 0.64, and every tick of at least 16 milliseconds, if and only if its edges are whole numbers |
| PaddleFractions.WrongedBall | src/common/cpong_logic.c:75-101 | whichever edge has a fraction, of either sign, some ball of size 10 and speed 0.05 is missed, or hit before it gets there, in a tick of 16 milliseconds |
| CollisionTests.AABBCollide | src/common/cpong_logic.c:103-161 | the test as run, against the specification the lemmas above are about |
| CollisionTests.BallWallCollide | src/common/cpong_logic.c:163-171 | the wall test as run, against its specification |
| CollisionTests.BallScoreCollide | src/common/cpong_logic.c:173-181 | the goal test as run, against its specification, and which line was crossed |
| Engine.GetFirstCollision | src/lib/engine.c:46-53 | of any array: found exactly when some entry is valid, and then the first of the least valid ones |
| Engine.FirstOfIsLeast | src/lib/engine.c:46-53 | what the selection loop computes is that entry, and the sentinel exactly when there is none |
| FixedPoint.QuantiseIsClose | include/krft/bin_array.h:181-201 | a float is off by less than 1/10000 after the wire, never larger in magnitude, and of no other sign |
| FixedPoint.QuantiseIsMonotone | include/krft/bin_array.h:181-201 | order survives, weakly |
| FixedPoint.FixedCountsTenThousandths | include/krft/bin_array.h:181-201 | the word on the wire is the number of whole ten-thousandths, toward zero |
| FixedPoint.RelayDoesNotDrift | include/krft/bin_array.h:181-201 | relaying any number of times is relaying once |
| Bytes.DecodeOfEncode | include/krft/bin_array.h:89-93 | every 32-bit integer survives the bytes in network order |
| Bytes.EncodeOfDecode | include/krft/bin_array.h:137-148 | every four bytes are the encoding of what they decode to |
| Bytes.EncodedIsSpelled | include/krft/bin_array.h:89-93 | the bytes of a number are its base-256 digits, most significant first, with the sign in the first |
| Bytes.DecodedIsSpelled | include/krft/bin_array.h:137-148 | four bytes are read as the number they spell in that order |
| BinArray.BinArr.AppendI32N | include/krft/bin_array.h:89-93 | appends the four bytes at the cursor and counts them |
| BinArray.BinArr.ReadI32N | include/krft/bin_array.h:137-148 | reads the word at the cursor and moves past it, leaving the buffer alone |
| Packets.RoundTrip | src/common/cpong_packets.c:92-156 | for every packet whose carried fields fit their C types, whatever follows it in the buffer and whatever the result held before: type, sync and every carried field come back, floats quantised, uncarried fields keep their values, and the length field is the body's |
| Packets.BodyHasLength | src/common/cpong_packets.c:22-90 | bodies of 1, 4, 100 and 40 bytes; no packet exceeds 200 |
| WireFormat.EncodingIsLaidOut | src/common/cpong_packets.c:22-90 | of every packet: which type, sync and length bytes it starts with and which number or ten-thousandths each four bytes after them spell |
| Codec.PacketSerialize | src/common/cpong_packets.c:22-90 | the buffer ends up with the packet's encoding, its length patched in afterwards, and the size counting every byte once |
| Codec.PacketDeserialize | src/common/cpong_packets.c:92-156 | computes exactly what the bytes decode to |
| Stream.Conversation | src/common/cpong_packets.c:220-263 | any list of packets, under any partial sends, partial receives and interruptions, arrives in order, and the stream is left on a packet boundary |
| Stream.RecvAll | src/common/cpong_packets.c:220-237 | exactly as many bytes as asked for, retrying interruptions; 0 only at the end of a stream too short, -1 only after a failed receive |
| Stream.RecvPacket | src/common/cpong_packets.c:239-263 | a success takes exactly the announced frame off the stream and decodes it; of a stream that begins with a packet's encoding, all there, and without receive errors, exactly that packet; without receive errors 0 if and only if no whole frame with a body is there, and -1 only after a failed receive |
| Stream.SendAll | src/lib/server.c:93-104 | everything is sent, in order, or a failure is reported after a prefix |
| Stream.StreamDeterminesPackets | src/common/cpong_packets.c:239-263 | two lists of packets with the same bytes arrive the same: framing is unambiguous |
| TsQueue.Queue.Add | src/lib/ts_queue.c:49-69 | between true neighbours, inserts into the sequence; list stays linked both ways, acyclic, with true head, tail and size |
| TsQueue.Queue.RemoveNolock | src/lib/ts_queue.c:71-97 | between true neighbours, deletes one position and destroys exactly its node |
| TsQueue.Queue.Enqueue | src/lib/ts_queue.c:106-110 | appends one item, in a node of its own |
| TsQueue.Queue.Dequeue | src/lib/ts_queue.c:118-122 | drops the first, if any |
| TsQueue.Queue.Destroy | src/lib/ts_queue.c:34-43 | hands every node to the destructor once, from head to tail |
| Server.HandleDisconnection | src/lib/server.c:70-91 | drops the first client of that id, keeps everyone else in order, and closes the socket exactly if there was one |
| Server.WithoutFirstRemovesId | src/lib/server.c:70-91 | with distinct ids nobody else is gone |
| Server.WithoutFirstDropsPosition | src/lib/server.c:73-83 | the position the search finds is the one to drop |
| Matchmaking.PairWaiting | src/lib/matchmaking.c:66-95 | rooms of two in order of arrival, nobody lost, less than a room left waiting |
| Matchmaking.PairingIsUnique | src/lib/matchmaking.c:66-95 | the order of arrival alone decides who meets whom |
| Matchmaking.NeighboursMeet | src/lib/matchmaking.c:66-95 | room k is open, named after arrival 2k and seats arrivals 2k and 2k + 1, and an odd last one waits |
| WakeUp.NeverSleepsOnAFullRoom | src/lib/matchmaking.c:57-102 | in every interleaving: while the matcher waits the queue is at most one short of a room plus the signals still to come, so with a full room there is one to come; any such signal wakes it, and it gives the mutex away only with less than a room waiting |
| WakeUp.NobodyIsLostOrDoubled | src/lib/matchmaking.c:60-95 | in every interleaving: rooms and queue are the arrivals in order minus those who left while waiting, every room is full, and nobody is in two places |
| RunEvery.RunAtIntervals | src/lib/run_every.c:33-45 | the steps handed to the calls, one per executed iteration, the last being the first that wants no more |
| RunEvery.StepIsLongEnough | src/lib/run_every.c:33-45 | with a monotone clock and sleeps at least as long as asked no step is shorter than the interval; from the second on it is the work, the rest of the interval and what was slept too long |
| RunEvery.StepsAddUp | src/lib/run_every.c:33-45 | steps add up to the time from one interval before the loop to the last start |

## Left out

- Sockets, accept, poll, thread creation, logging, SDL, the LCD, the rasteriser and rendering: I/O and other libraries.
- Rounding of IEEE floats: numbers are exact reals, including the accumulated positions.
- The ranges of the wire inside a match: paddles are not clamped by the program, so a paddle driven one way for minutes leaves the fixed-point range; the step relation passes such values on quantised.
- Overflow of the 32-bit accumulated input: amounts are unbounded integers in the match.
- The random angle of a fresh ball: the program draws one of five in each quadrant; the model allows any direction with both components moving, at speed 0.05.
- MatchTie.MatchHasTie: takes the serve, and the speed at which the first client sees it, with the equations of the square roots that bind them; the reals of the model have these roots but no function that yields them.
- Whether the ball stays between the goal lines within a tick of several bounces: goals are swept over the remaining time and walls over the whole tick.
- Ticks of no length: `ball_advance` then sets no score index; time steps are positive.
- Several rooms: the server's state is static and shared by all rooms; one room is modelled, from its first match on.
- Disconnection during a match, the disbanding of rooms and the return value of a tick that ends it.
- Malformed streams and failed receives inside a match; the stream module has the error results of `recvall` and `sendall`.
- The handlers of a match as threads: `Match` takes each as one step; `FineGrained`, `FineRaces` and `FineHeights` have the sections but of the game only the clients' own paddles, and the unlocked access of the client's frame to its state is in neither.
- Failed allocation.
- `ts_queue_remove`, which locks again where it should unlock, and `server_broadcast`, which walks nodes a failed send may free.
- `packet_serialize` of unknown types beyond the header, 16-bit and unsigned buffer accessors, host-order accessors: not used by packets.
- Stream.RecvPacket: for a stream that announces more than the buffer holds, or a negative length, where what C does is undefined.
- RunEvery.RunAtIntervals: does not perform the calls or the sleeps; what the clock shows around them is a parameter.
