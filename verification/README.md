# The durable table protocol of the Hanabi server, verified

The native server keeps every table in Redis under an expiring lease, every finished game and chat message in
PostgreSQL, and every running table in its own single-threaded actor, with one hub between the actors and the
browsers. This project models that protocol in Dafny and proves what the rest of the server relies on: who may
write, what survives a crash, that a recovery ends with the same tables however often it is interrupted, that
nobody plays at two tables, and what a drain or a preference acknowledgement really says. Three self-contained
algorithms are proved against independent specifications: the Go-compatible random generator, the session
cookie, and the reader of hexadecimal countdowns.

## How it is organised

Each part of the server that changes things in place is a class whose methods are proved against a function on
values; each protocol whose parties run at the same time is a step relation on values, with invariants that are
proved for every step and theorems about every run.

| part | modules | source |
|---|---|---|
| random generator, seed hash, shuffle | `Arithmetic`, `SeedHash`, `Shuffling`, `Random` | `server/src/random.rs` |
| session cookie | `Base64`, `Cookie` | `server/src/cookie.rs` |
| hexadecimal countdown | `Countdown` | `server/src/actors.rs` |
| lease, scripts, durability | `Redis`, `Authority`, `Ledger`, `Runs`, `Handle` | `server/src/state.rs` |
| tables and their validity | `Model`, `Roster` | `server/src/model.rs`, `server/src/actors.rs` |
| clocks | `Clock` | `server/src/actors.rs` |
| archive of games and chat | `Deck`, `Archive`, `Messages` | `server/src/game.rs`, `server/src/store.rs` |
| recovery | `Settling`, `Recovery`, `Ordering`, `Convergence`, `Conflicts` | `server/src/store.rs` |
| checkpoints and handovers of an actor | `Actor`, `Transfer` | `server/src/actors.rs` |
| one table per player | `Playing`, `Freezing`, `Hub` | `server/src/actors.rs` |
| pregame grace | `Grace` | `server/src/actors.rs` |
| drain | `Drain`, `Shutdown` | `server/src/lifecycle.rs`, `server/src/actors.rs` |
| frames to a browser | `Transport`, `Farewell` | `server/src/transport.rs`, `server/src/web.rs` |
| preferences in the browser | `Preferences` | `packages/client-new/src/connection.ts` |

The idea behind recovery is one predicate. `Settling.Settles` says which tables, chat, games and tags a store
amounts to once everything pending in it is finished. Every write of a recovery and of an actor's checkpoint
keeps that meaning (`PutSettles`, `SpawnSettles`, `RetireSettles`, `TagsWritten`, `ChatWritten`, `GameWritten`),
and a store with nothing pending is what it amounts to (`QuietIsReached`). The classes record each state that
they write in a `trace`, so a property of the whole trace is a property of every crash point. Edits of one
game that wait in several tables are made in the order in which the store lists these tables, so what a store
amounts to names that order; `Ordering` says what two orders have in common.

## What does not hold

Some promises of the code hold only under a condition, which is proved to be exact, with an input on which the
promise fails.

- A join freezes its table when its checkpoint was written and the notice of it could not be archived. The claim
  is given back although no view shows the player. In every reachable state that player can enter a second
  table exactly when the checkpoint was written, the lease is still held, and no view but that of the second
  table and no claim shows the player (`Freezing.SecondTableExactly`); once routed there, the player is let in
  however much later exactly when the checkpoint was written, the lease is held and that table still runs as no
  review (`Freezing.AdmittedLaterExactly`). `Freezing.FreezingLetsPlayerIntoTwo` is such a run. If each written
  checkpoint of a frozen join gives the lease up, as one with an unknown outcome does, nobody plays at two tables
  in any run (`Freezing.OneTableDespiteFreezing`); in any run at all only players of such joins do
  (`Freezing.OnlyFrozenJoiners`).
- A kick, a change of size and a change of leader push messages without a look at the length of the chat. The
  table can be saved exactly if there is room for them (`Roster.KickValid`, `Roster.ResizeValid`,
  `Roster.PromoteValid`); with a full chat it cannot (`Roster.FullChatRejects`).
- Two seeds that differ in one byte have the same hash exactly when both are legacy seeds and the byte is among
  the nine that are dropped (`SeedHash.SeedsDifferingInOneByte`, `SeedHash.LegacySeedsCollide`).
- A completion that is repeated accepts what it stored itself exactly when no number was cut to 16 or 32 bits on
  its way into the archive (`Archive.RetryAcceptsItself`, `Archive.SlowGameIsRefused`). The server itself limits
  the time per turn to a day, so only a game from elsewhere is that slow.
- Recovery leaves the same in every order in which the store may list its tables exactly when any two waiting
  edits of one game do the same to its tags (`Conflicts.OrderMattersExactly`). Two recoveries of a store with
  two such edits, in both orders, end alike exactly in that case (`Conflicts.OrderOfEditsMatters`); two users
  who add a tag each at the same time are not that case (`Conflicts.TwoTagsDiffer`, and `Conflicts.TwoTagsRecovered`
  recovers such a store in both orders). In every case nothing is left pending, and everything but the tags of
  these games is the same (`Convergence.RecoverAfterCrashes`).
- A journalled table that is recovered before its source can still be handed over exactly if none of its chat
  waited for the archive: otherwise it is no longer what the journal says, which recovery rejects as a conflict
  (`Conflicts.DestinationFirst`; `Conflicts.HandoverConflicts` recovers such a store, and
  `Conflicts.SourceFirst` says that the other order has no conflict). No command of this server journals such a
  table: a split clears the chat of the new one, and a restart copies chat that is archived already. Only a store
  written by something else can have one.
- A table that is refused because the hub closes is said to recover. It is gone exactly if its allocation still
  guards it, under the revision at which it is stored, and the removal that the allocation asks for is let
  through and runs (`Transfer.Install`). A review that was saved and is refused for that reason has such an
  allocation, so that it is lost whenever nothing else fails (`Transfer.Prepare`, `Transfer.ClosingHubForgets`),
  and recovers only if the lease is lost or the removal does not run.
- Time alone makes a game invalid exactly when it takes a clock or a duration out of the range of safe integers
  (`Clock.LaterIsValid`, `Clock.TimeAloneInvalidates`). An action that the engine takes can be saved exactly when
  neither the duration nor the clock of whoever acts leaves that range; the time of the turn does not matter,
  because it starts anew (`Clock.ActionIsValid`).
- After a maintenance close has begun, a frame that was let through before can still be queued behind the close
  frame exactly when no message of the close is too long and some other call still holds a frame for the session
  that is not too long (`Farewell.LateFrameExactly`, `Farewell.LateFrameFollowsClose`). Otherwise the close is
  undisturbed (`Farewell.UndisturbedClose`).

One more promise rests on something outside: the writer of a session still hands two more things to the
websocket once it has stopped, also after a close frame of the queue: an explanation for whoever was replaced, and
a final close (`Transport.OfferedInOrder`). That a browser gets nothing after a close frame
(`Transport.BrowserSees`) rests on the websocket library, which is assumed to send nothing after a close frame that
it has taken.

What becomes of each request to the stores (whether the lease has run out, whether it runs, and whether its answer
arrives) is an input of the actors' and the handover's methods, and so is what the other tables write while a
handover waits. So these methods say both what is kept whatever happens, and that they succeed when nothing fails.

## Model

| member | source | states |
|---|---|---|
| SeedHash.SeedHash | server/src/random.rs:5-26 | the loop over the seed's bytes computes the reflected 64-bit cyclic redundancy check of the part that is hashed, and refuses exactly the legacy seeds that have no such part |
| SeedHash.CrcInjective | server/src/random.rs:5-26 | the same bytes never lead two different registers to the same one, so nothing read so far is forgotten |
| SeedHash.SeedsDifferingInOneByte | server/src/random.rs:5-26 | two seeds that differ in one byte, both of them legacy seeds or neither, have the same hash if and only if they are legacy seeds and the byte is one of the nine that are dropped |
| SeedHash.LegacySeedsCollide | server/src/random.rs:5-12 | two legacy seeds that differ in the byte after their prefix have the same hash |
| Random.StepMultiplies | server/src/random.rs:51-58 | the split multiplication equals 48271 times x modulo 2^31 - 1 and stays between 1 and 2^31 - 2 |
| Random.SeedState | server/src/random.rs:35-75 | the in-place seeding fills each of the 607 words with three consecutive residues of the linear congruential sequence, mixed with that word's constant |
| Random.GoRandom.constructor | server/src/random.rs:35-75 | tap and feed start in range, and the words are the seeded state in the order in which draws use them |
| Random.ExtendRecurrence | server/src/random.rs:77-83 | each word is the sum modulo 2^64 of the words 607 and 273 before it, for every number of draws |
| Random.GoRandom.Int63 | server/src/random.rs:77-83 | one draw from the ring buffer extends that sequence by one word, returns it without its top bit, and keeps tap and feed in range |
| Random.FuelOnlyDelays | server/src/random.rs:85-103 | allowing more rejected draws never changes a bounded draw that was made |
| Random.BoundedBelow | server/src/random.rs:85-103 | a bounded draw is below its bound |
| Random.PowerOfTwoMask | server/src/random.rs:85-103 | masking with a power of two less one is the remainder, and no draw is rejected for such a bound |
| Random.KeptDraws | server/src/random.rs:85-103 | the raw draws that are kept are whole blocks of the bound, and more than half of all raw draws |
| Random.BoundedDrawIsFair | server/src/random.rs:85-103 | every result below the bound is the image of the same number of kept raw draws, in the 31-bit and in the 63-bit case |
| Random.GoRandom.Intn | server/src/random.rs:85-103 | the loop returns the remainder of the first kept raw draw and uses up exactly the words drawn until then |
| Random.GoRandom.Shuffle | server/src/random.rs:105-109 | the array becomes the arrangement that the generator's choices lead to, each choice drawn in turn from the words left by the ones before |
| Shuffling.SwapPlaces | server/src/random.rs:105-109 | swapping in the array is swapping in its contents, also when both places are the same |
| Shuffling.ArrangePermutes | server/src/random.rs:105-109 | a shuffle keeps each item as often as it was there |
| Shuffling.ArrangeInjective | server/src/random.rs:105-109 | different choices lead to different arrangements of distinct items |
| Shuffling.ShuffleReachesEachArrangementOnce | server/src/random.rs:105-109 | each arrangement of distinct items is reached by exactly one sequence of choices |
| Base64.RoundTrip | server/src/cookie.rs:67-82 | decoding gives back every byte sequence that was encoded (section 5 of RFC 4648) |
| Base64.EncodeAvoids | server/src/cookie.rs:67-82 | no byte outside the alphabet and the padding appears in an encoding |
| Cookie.Reader.Uint | server/src/cookie.rs:19-34 | the reader returns the number at the front of its slice and shrinks the slice by its bytes, or fails on a bad width, missing bytes or 64-bit overflow |
| Cookie.Reader.Int | server/src/cookie.rs:35-43 | the low bit of the number read decides whether the others are complemented |
| Cookie.Reader.Frame | server/src/cookie.rs:44-50 | the reader splits off exactly the framed bytes, or fails when they are not all there |
| Cookie.ReadUintBytes | server/src/cookie.rs:19-34 | reading what the integer writer wrote gives the number and leaves any suffix untouched |
| Cookie.ReadFrameBytes | server/src/cookie.rs:44-50 | reading what the frame writer wrote gives the content and leaves any suffix untouched |
| Cookie.WriteUint | server/src/cookie.rs:141-150 | the loop that drops leading zeros writes the shortest big-endian form behind its complemented width |
| Cookie.WriteFrame | server/src/cookie.rs:151-156 | a frame is the length of its content followed by the content |
| Cookie.WritePayload | server/src/cookie.rs:157-181 | the nested pushes build the declaration, then the map with its one entry, each in its frame |
| Cookie.PayloadRoundTrip | server/src/cookie.rs:106-175 | every positive 32-bit id is read back from its payload |
| Cookie.PartsOfEnvelope | server/src/cookie.rs:86-97 | the two separators are found where they were written, whatever bytes the signature holds |
| Cookie.EncodeCookie | server/src/cookie.rs:157-181 | a cookie is written exactly for a positive id, a non-negative time and a non-empty secret |
| Cookie.DecodePayload | server/src/cookie.rs:106-138 | the readers of the nested frames accept exactly the payloads of the specification |
| Cookie.DecodeCookie | server/src/cookie.rs:84-139 | the reader accepts exactly what the specification of a valid cookie accepts |
| Cookie.CookieRoundTrip | server/src/cookie.rs:84-181 | a cookie that was written is read back as its id for a year, and as nothing afterwards |
| Cookie.AcceptedCookiesAreSigned | server/src/cookie.rs:84-139 | an accepted cookie is the encoding of its own message and that message's signature, short enough, recent enough, and of a positive 32-bit id |
| Countdown.ReadHex | server/src/actors.rs:1178-1219 | the loops over digits and bits give the exact number rounded once, with all saturating additions |
| Countdown.RoundBits | server/src/actors.rs:1201-1217 | cutting the bit vector and adding one by its guard and sticky bits is rounding half to even |
| Countdown.GuardAndSticky | server/src/actors.rs:1211-1217 | the first lost bit, whether any later one is set, and the last kept bit decide the rounding to nearest |
| Countdown.SaturationIsHarmless | server/src/actors.rs:1183-1209 | exponents that saturate give the reading of the exact exponent, for every message that fits the transport |
| Countdown.ReadingIsNearest | server/src/actors.rs:1198-1219 | no finite double-precision number is nearer to the exact number than the reading, and on a tie the reading is even (section 4.3.1 of IEEE 754-2019) |
| Countdown.ReadingIsRepresentable | server/src/actors.rs:1198-1219 | the reading is itself a finite double-precision number, also after a carry to 2^53 and among the subnormal ones |
| Countdown.RejectedFromOverflowOn | server/src/actors.rs:1206-1219 | a number is rejected if and only if it is at least the midpoint between the largest finite number and 2^1024 |
| Redis.Store.SaveRecord | server/src/state.rs:40-50 | the commands of the script leave the record, the index and the answer that one atomic compare-and-set leaves |
| Redis.Store.RemoveRecord | server/src/state.rs:51-62 | the script removes record and index entry together, answers a missing record as removed and refuses another revision |
| Redis.Store.ReserveRecord | server/src/state.rs:17-25 | the script reserves an identity at revision zero unless it exists or the index is full |
| Redis.Store.AllocateTable | server/src/state.rs:26-39 | the script counts up and reserves the number, keeping the count even when it refuses |
| Redis.Store.SetOwner | server/src/state.rs:244-263 | the lease is taken only when no unexpired one is there |
| Redis.Store.RenewLease | server/src/state.rs:73-76 | only the token in the lease extends it |
| Redis.Store.ReleaseLease | server/src/state.rs:77-80 | only the token in the lease gives it up |
| Redis.RunKeepsConsistent | server/src/state.rs:17-80 | every script keeps index and records naming the same at most 4096 identities |
| Redis.OnlyTheHolderCommits | server/src/state.rs:17-62 | a script that changes a record, the index or the counter was sent by the holder of an unexpired lease |
| Authority.StepKeepsInv | server/src/state.rs:140-172 | the lease that a server trusts is in every state a crash could leave until a quarter of its time after the deadline, and the log replays, through every request, answer, confirmation, crash, expiry and close |
| Ledger.RevisionCountsSaves | server/src/state.rs:40-50 | a record exists exactly while it was created and not removed since, and its revision is the number of saves committed since |
| Ledger.SaveLasts | server/src/state.rs:40-62 | a committed save is there until a removal, and its contents until a later save |
| Ledger.RemovalLasts | server/src/state.rs:51-62 | a removed record stays away until it is reserved again; no save brings it back |
| Ledger.IdentitiesGrow | server/src/state.rs:26-39 | identities that are handed out grow strictly |
| Ledger.LogReadable | server/src/state.rs:461-533 | only records that were never saved have no contents, so reading never rejects one |
| Ledger.CommitsAreTheHolders | server/src/state.rs:17-62 | whoever changed anything held the lease at the moment it did |
| Runs.CheckedOwnerHolds | server/src/state.rs:140-151 | a server that passes its check holds the lease in every state a crash could leave, with a quarter of the lease to spare |
| Runs.MutualExclusion | server/src/state.rs:140-151 | in no run do two servers pass their checks at the same moment |
| Runs.OthersAreFencedOff | server/src/state.rs:17-62 | while a server passes its check, a script of any other one changes nothing |
| Runs.DurablePrefixSurvives | server/src/state.rs:162-172 | what the append-only file confirmed is never taken back, by any crash |
| Runs.AcknowledgedWritesSurvive | server/src/state.rs:351-361 | whatever was reported as done is in the log from then on, where it was executed |
| Runs.AcknowledgedSaveSurvives | server/src/state.rs:383-409 | an acknowledged save is in the store after any further run with crashes, unless it was removed later, with its contents unless saved over |
| Runs.AcknowledgedRemovalSurvives | server/src/state.rs:444-459 | an acknowledged removal is final until the identity is reserved afresh |
| Runs.StoreIsConsistent | server/src/state.rs:17-62 | index and records agree in every reachable state and in every state a crash could leave |
| Runs.CheckpointsAreReadable | server/src/state.rs:501-533 | loading never meets a saved record without contents |
| Runs.AcknowledgedIdentitiesGrow | server/src/state.rs:426-443 | identities that were reported are all different and grow in the order of their execution, also across crashes |
| Runs.AnsweredRequestCounts | server/src/state.rs:275-459 | a request of any kind, renewals included, that is not refused and is answered and confirmed in time is reported as done, and taking a free lease this way makes the server's check pass |
| Handle.Ownership.CheckNow | server/src/state.rs:144-151 | a check passes only while the lease is trusted, and a failed one gives the lease up for good |
| Handle.Ownership.Renewed | server/src/state.rs:275-316 | only a confirmed renewal moves the deadline, and any other answer gives the lease up |
| Handle.Ownership.Reply | server/src/state.rs:363-381 | an error or a lost lease cancels ownership before the caller learns of it; refusals do not |
| Handle.Ownership.Acknowledge | server/src/state.rs:351-361 | a write counts exactly if it was confirmed while the lease was still trusted |
| Handle.Ownership.Write | server/src/state.rs:351-459 | a write succeeds exactly if it passed both checks, ran, was answered and confirmed; a failure without loss of the lease changed nothing but perhaps the counter of identities |
| Model.ConvertToReplay | server/src/model.rs:215-241 | a table is converted exactly when its game is over, and only its phase changes |
| Model.ReplayIsStorable | server/src/model.rs:215-372 | a finished table that could be saved can be saved as its review, with the same players |
| Roster.RemapShadows | server/src/actors.rs:1792-1807 | the loop over spectators moves each shadow to the seat of the same player |
| Roster.FollowsOneSeat | server/src/actors.rs:1792-1807 | there is only one seat that a shadow can follow its player to |
| Roster.ShadowsFollowTheirPlayers | server/src/actors.rs:1792-1807 | a spectator still shadows the same player if that player remains, and nobody otherwise |
| Roster.ChangesKeepShadowedPlayers | server/src/actors.rs:1792-1807 | that holds after each join, leave, cleanup, kick, resize, change of leader, start and split |
| Roster.RemovePregamePlayers | server/src/actors.rs:1115-1150 | the in-place removal leaves the others in order, hands the table to the first of them if its owner left, and ends the countdown |
| Roster.Retain | server/src/actors.rs:1115-1150 | retaining keeps exactly the players that do not leave, in order |
| Roster.JoinValid | server/src/actors.rs:2660-2713 | a table after an allowed join can be saved |
| Roster.LeavingValid | server/src/actors.rs:2811-2856 | whoever stays when some leave has a table that can be saved and that one of them owns |
| Roster.KickValid | server/src/actors.rs:3897-3952 | a table after an allowed kick can be saved if and only if its chat has room for two messages and its list of those kicked for one more |
| Roster.ResizeValid | server/src/actors.rs:2596-2646 | a table after an allowed change of size can be saved if and only if its chat has room for one message |
| Roster.PromoteValid | server/src/actors.rs:3483-3507 | after a change of leader the new owner sits first, and the table can be saved if and only if its chat has room for one message |
| Roster.FullChatRejects | server/src/model.rs:283-286 | a table with a full chat on which each of these three commands is allowed and cannot be saved |
| Roster.StartValid | server/src/actors.rs:2917-2992 | a started table can be saved, and has the same players in another order |
| Roster.SplitValid | server/src/actors.rs:4058-4148 | a split that leaves somebody behind leaves a table that can be saved and that one of those owns |
| Roster.ChangesKeepValid | server/src/model.rs:242-372 | a change of a roster that leaves somebody there can be saved if and only if there is room for what it adds |
| Clock.LaterIsValid | server/src/actors.rs:1752-1768 | charging time keeps a valid game valid if and only if no duration or running clock leaves the safe integers |
| Clock.TimeAloneInvalidates | server/src/model.rs:242-372 | two valid games that are invalid a millisecond later |
| Clock.ActionIsValid | server/src/actors.rs:3034-3062 | the game that is checkpointed after an action, with its increment, its queued pause and its time of finishing, is valid if and only if the duration and the clock of whoever acted are safe integers |
| Clock.StepBalances | server/src/actors.rs:1752-1768 | one event keeps the sum of the clocks equal to the account and charges an interval that starts where the last one ended |
| Clock.ClocksBalance | server/src/actors.rs:3034-3062 | in every run the clocks sum to start plus increments plus allowances less charged time (and what a timeout forgives), no interval is charged twice, and at most one maintenance allowance is granted between two actions |
| Clock.RejectedChargesNothing | server/src/actors.rs:1752-1778 | a rejected command charges nothing, and the next one accounts for the whole time |
| Clock.Actor.Candidate | server/src/actors.rs:1752-1768 | the candidate is the game as it would be after the time since the anchor |
| Clock.Actor.TakeAction | server/src/actors.rs:3034-3062 | an action charges, applies, adds the increment, lets a queued pause begin, and takes effect only if it is saved |
| Clock.Actor.Pause | server/src/actors.rs:3214-3252 | pausing, resuming and queueing a pause follow the guards of the command and charge the time until then |
| Clock.Actor.Timer | server/src/actors.rs:4360-4438 | the timer ends a game whose active clock or idle time ran out, forgives what the clock lacks, and otherwise changes nothing |
| Clock.Actor.Stop | server/src/actors.rs:2002-2012 | a drain saves the game with one allowance, unless it was granted since the last action |
| Clock.Actor.ApplyWithoutCheckpoint | server/src/actors.rs:1772-1778 | what is only kept in memory replaces the game and moves the anchor but not the checkpoint, exactly if the lease is held and the table is not frozen |
| Clock.Actor.Loaded | server/src/actors.rs:2313-2336 | loading starts the clock and is saved exactly if it is by whoever is to act in a running game whose clock had not started; any other loading is only kept in memory, and charges the time until then all the same |
| Clock.Actor.Point | server/src/actors.rs:3629-3632 | an arrow or a sound in a review resets its idle time in memory only |
| Deck.EncodeDeck | server/src/game.rs:146-160 | the loop writes a length byte and a byte for each card, exactly for decks that have a form |
| Deck.DecodeDeck | server/src/game.rs:161-175 | what is read encodes to the bytes that were given, and bytes are rejected only if no deck encodes to them |
| Deck.EncodingIsInjective | server/src/game.rs:146-175 | two decks never share their bytes |
| Archive.Database.Complete | server/src/store.rs:322-525 | a first completion inserts one row for the game, with its players, notes, actions, deck and tags; a later one only compares, and changes nothing |
| Archive.Database.InsertParticipants | server/src/store.rs:471-493 | the loop stores each seat's user, assignment and notes that say something, and fails exactly for a character's number that does not fit |
| Archive.Database.SameParticipants | server/src/store.rs:380-405 | the comparison accepts exactly the seats that were stored |
| Archive.Database.SameDeck | server/src/store.rs:449-460 | the comparison accepts exactly the deck that the row stands for, seeded or custom |
| Archive.InsertableWhenMetadataFits | server/src/store.rs:470-525 | a finished game can be stored if and only if its characters' numbers fit |
| Archive.RetryAcceptsItself | server/src/store.rs:364-525 | repeating a completion succeeds if and only if nothing that is compared was cut |
| Archive.SlowGameIsRefused | server/src/store.rs:364-469 | a game with so much time per turn that it is stored, and refused when its completion is repeated |
| Archive.RetryAcceptsOnlyTheSame | server/src/store.rs:364-469 | a repeated completion succeeds if and only if both games agree in every compared field |
| Messages.FilingIsExact | server/src/store.rs:662-716 | filing succeeds if and only if every message has its own number and agrees with what is filed there; then exactly these messages were added |
| Messages.PrepareChat | server/src/store.rs:628-661 | the loop numbers each message that has no number yet, in order, with the numbers that were reserved |
| Messages.StepKeepsInv | server/src/store.rs:628-716 | each number stands for one message of one table, and the numbers of a table grow in order, through reservations that draw their numbers one by one while others draw theirs, drafts, checkpoints, filings, crashes, retries and restarts |
| Messages.FilingNeverConflicts | server/src/store.rs:235-240 | whoever files a checkpoint again, however late, meets no conflict |
| Messages.RowsStay | server/src/store.rs:662-716 | a row keeps its message for good |
| Messages.ArchivedExactlyOnce | server/src/actors.rs:1817-1835 | each archived message of a checkpoint is one row with its own content, and two equal texts have two rows |
| Messages.WaitingNumbersDiffer | server/src/store.rs:628-661 | messages that wait in different tables have different numbers, as recovery needs |
| Settling.PutSettles | server/src/store.rs:171-196 | a checkpoint that drops only what is done elsewhere leaves the store amounting to the same |
| Settling.TagsWritten | server/src/store.rs:717-765 | so does making the first edit of a game that waits |
| Settling.ChatWritten | server/src/store.rs:662-716 | so does filing messages that wait |
| Settling.GameWritten | server/src/store.rs:322-525 | so does storing a finished game that waits |
| Settling.SpawnSettles | server/src/store.rs:252-258 | so does saving the table that a journal holds |
| Settling.RetireSettles | server/src/store.rs:265-268 | so does giving up a source whose table is saved |
| Settling.QuietIsReached | server/src/store.rs:207-283 | a store with nothing pending is what it amounts to |
| Recovery.Store.Save | server/src/store.rs:171-196 | a checkpoint is written exactly if it is valid and names the current revision |
| Recovery.Store.ApplyTag | server/src/store.rs:717-765 | one transaction edits the tags of an archived game and returns what it then has |
| Recovery.Store.ArchiveChat | server/src/store.rs:662-716 | one transaction files every message or none |
| Recovery.Store.Complete | server/src/store.rs:322-345 | only the game of the current checkpoint is archived, once |
| Recovery.Store.Load | server/src/state.rs:501-533 | loading drops the reservations of earlier runs and returns exactly the saved tables |
| Recovery.Store.FinishTag | server/src/store.rs:230-234 | the review ends with the tags its game then has, and no pending edit |
| Recovery.Store.FinishChat | server/src/store.rs:235-240 | the table ends with all of its chat in the archive |
| Recovery.Store.Deliver | server/src/store.rs:241-264 | afterwards the journalled table is stored as journalled, and no other table changed |
| Recovery.Store.Release | server/src/store.rs:265-271 | a source that retires is gone, any other one is free of its journal |
| Recovery.Store.FinishGame | server/src/store.rs:272-281 | a finished game is archived before its table becomes the review |
| Recovery.Store.RestoreTable | server/src/store.rs:224-282 | one table ends with nothing pending, in the order of its journals, whatever state it was in |
| Recovery.Store.Restore | server/src/store.rs:207-283 | for every order in which the store lists its tables, recovery ends, returns each table once with nothing pending, reaches what the store amounts to in that order, keeps that meaning in every state on the way, and writes nothing when nothing is pending |
| Ordering.OrderedSettles | server/src/store.rs:222-234 | making the waiting edits of each game one after the other, in any order, gives something that the store amounts to |
| Ordering.Relisted | server/src/state.rs:501-533 | a store that amounts to something in one order does so in every order, to the same but for the tags of edited games, and to exactly the same if waiting edits of a game do the same |
| Convergence.WellFormedSettles | server/src/store.rs:207-283 | every well-formed store amounts to something in each order of its tables, so recovery finishes it |
| Convergence.RecoverAfterCrashes | server/src/store.rs:207-283 | after any number of recoveries, each cut short after any write and each with its own order of the tables, the last one leaves nothing pending and the same as an undisturbed one up to the tags of edited games, or exactly the same if waiting edits of a game do the same; one more writes nothing |
| Conflicts.OrderMattersExactly | server/src/store.rs:222-234 | recovery leaves the same in all orders of the tables if and only if waiting edits of one game all do the same |
| Conflicts.OrderOfEditsMatters | server/src/store.rs:207-283 | two recoveries of a store with two waiting edits of one game, in both orders, finish everything, and leave the same if and only if both edits do the same to the tags |
| Conflicts.TwoTagsDiffer | server/src/store.rs:717-765 | two different tags that are added do the same only if the game has both already |
| Conflicts.TwoTagsRecovered | server/src/store.rs:222-234 | a store with two such reviews of one game, recovered in both orders, with two different results |
| Conflicts.DestinationFirst | server/src/store.rs:244-251 | once a journalled table was recovered by itself, its source can be recovered if and only if that table had no chat waiting for the archive |
| Conflicts.SourceFirst | server/src/store.rs:241-271 | in the other order the handover succeeds, and the journalled table can be recovered if its chat can be filed |
| Conflicts.HandoverConflicts | server/src/store.rs:244-251 | a store with a table handed over with one message that waits, on which recovery of the source fails |
| Actor.Gateway.Save | server/src/state.rs:351-409 | a checkpoint is saved exactly if it is valid, names the current revision, is let through, runs and is answered; one whose outcome is unknown gives the lease up, and a failure that does not changed nothing |
| Actor.Gateway.Remove | server/src/state.rs:444-459 | a record is gone exactly if the removal was let through and ran against its current revision, and is reported as gone exactly if that was answered too or there was none |
| Actor.PreparedKeepsShape | server/src/actors.rs:1782-1817 | preparing a change never touches who sits at the table or its handover |
| Actor.TableActor.FinishStages | server/src/actors.rs:1824-1848 | the stages after the first checkpoint keep what it amounts to and end with nothing pending, which they do reach if nothing fails and each stage can be saved |
| Actor.TableActor.Persist | server/src/actors.rs:1779-1876 | a change is rejected before anything is written and the table goes on, or is saved and the store holds what the table holds, or freezes the table; each state on the way amounts to what the first checkpoint amounts to; and if nothing fails, a change with nothing further to archive is saved exactly if the table runs, the change is acceptable and its revision is the stored one, and any acceptable one if what it has to archive can be |
| Actor.OwnEditFirst | server/src/actors.rs:1826-1831 | whatever a store amounts to, it does so too, up to the tags of edited games, with the edit of the acting table made first |
| Transfer.Allocation.Drop | server/src/actors.rs:97-121 | what is stored under the identity is removed exactly if the allocation is armed, knows the stored revision, and the removal is let through and runs; afterwards nothing is armed |
| Transfer.Install | server/src/actors.rs:890-938 | a prepared table is taken in exactly if the hub is not closing, the session is current and the table is new; a stored one is gone afterwards exactly if it was refused, its allocation is armed and knows the stored revision, and the removal is let through and runs |
| Transfer.Prepare | server/src/actors.rs:858-889 | if nothing fails, a table that is saved under its reserved identity and offered to the hub is stored afterwards exactly if the hub takes it in |
| Transfer.ClosingHubForgets | server/src/actors.rs:898-903 | every table that was saved at revision one, offered to a closing hub with nothing failing, and removed |
| Transfer.Journal | server/src/actors.rs:4000-4004 | after the journal the store holds the source as it was, or the source with the new table inside |
| Transfer.Deliver | server/src/actors.rs:4005-4012 | saving the new table leaves the journal in place, and a failure freezes the source |
| Transfer.Release | server/src/actors.rs:4013-4023 | the source is given up or freed only while the new table is stored |
| Transfer.GiveUp | server/src/actors.rs:105-121 | giving the identity back never removes a table that the journal no longer asks for |
| Transfer.Transfer | server/src/actors.rs:3972-4057 | at every point, with any failure or uncertain answer and whatever other tables write in between, the source is untouched, journalled, or done, and everything else is what the other tables made of it; it is done if the hub allows it, the tables are ready and every request is answered |
| Transfer.JournalSettlesTo | server/src/actors.rs:4000-4004 | writing the journal alone already makes the store amount to the whole handover |
| Transfer.HandoverIsAtomic | server/src/store.rs:241-271 | wherever a handover is cut short, recovery can finish the store, which amounts to all of the handover or to nothing of it, measured by the store as it would then be without it |
| Transfer.SplitPlacesEveryone | server/src/actors.rs:4058-4148 | after any failed, cut short or finished split and the recovery from it, each member sits at exactly one of the two tables, nobody else sits at either, and all other tables, chat, games and tags are as they would then be without it |
| Roster.SplitLeavesInOrder | server/src/actors.rs:4115-4123 | after a split exactly those who do not move stay, in their order, under their owner, or under the first of them if the owner moves |
| Playing.StepKeepsInv | server/src/actors.rs:357-495 | whoever plays is shown by a view, at every coming moment of the mailbox, or held by a claim for that table, through every message and every stage of a join, a new table, a split or a restart |
| Playing.ElsewhereIsSound | server/src/actors.rs:357-361 | where no view shows a player whom no claim holds, the player does not play |
| Playing.OneTablePerPlayer | server/src/actors.rs:57-80 | in every run without a frozen table nobody plays at two tables |
| Freezing.NextKeepsInv | server/src/actors.rs:1870-1875 | membership stays covered by views or claims when tables freeze and the lease is lost; a frozen table stays as its actor knows it, and the last view on its way shows that |
| Freezing.OneTableDespiteFreezing | server/src/actors.rs:362-391 | nobody plays at two tables in any run in which each frozen join with a written checkpoint gives the lease up |
| Freezing.OnlyFrozenJoiners | server/src/actors.rs:1870-1875 | whoever plays at two tables in any run has a written checkpoint of a frozen join at one of them |
| Freezing.SecondTableExactly | server/src/actors.rs:326-391 | in every reachable state, the player of a frozen join enters a second joinable table if and only if the checkpoint was written, the lease is held, and no other view and no claim shows the player |
| Freezing.AdmittedLaterExactly | server/src/actors.rs:2660-2713 | in every reachable state in which the player of a frozen join waits to be let in at another table, that table lets the player in, who then is at both, if and only if it runs as no review, the lease is held and the checkpoint of the frozen join was written |
| Freezing.FrozenViewForgets | server/src/actors.rs:1870-1875 | once the mailbox is empty, the view of the frozen table does not show that player |
| Freezing.FreezingLetsPlayerIntoTwo | server/src/actors.rs:1829-1835 | a run in which a join freezes and its player enters a second table |
| Hub.Coordinator.PlayingElsewhere | server/src/actors.rs:357-361 | the scan of the views finds whoever is shown as a player anywhere but at the given table |
| Hub.Coordinator.RouteJoin | server/src/actors.rs:362-427 | a join is sent on exactly if the session is current, no other view shows the player, the table is known, no claim is held and the mailbox has room; the claim is then held |
| Hub.Coordinator.CreateTable | server/src/actors.rs:428-494 | likewise for a new table, whose claim goes with its allocation |
| Hub.Coordinator.Receive | server/src/actors.rs:763-1063 | handling one message is one step of the protocol: views are replaced and removed, and a claim is given back only after the view is there |
| Hub.Coordinator.CheckPlaying | server/src/actors.rs:771-789 | a handover is allowed exactly if none of its players is shown at a third table |
| Hub.RoutedPlaysNowhereElse | server/src/actors.rs:362-384 | a player whom the hub lets join plays at no other table at that moment |
| Grace.DeadlineIsLate | server/src/actors.rs:2206-2230 | a player with a deadline is not seated over a live connection, and was not for the sixty seconds before it |
| Grace.RemovedAfterTheWholeGrace | server/src/actors.rs:2206-2253 | in every run a player removed by a cleanup was not actively seated at any moment of the sixty seconds before |
| Grace.ExpiredAreRemoved | server/src/actors.rs:2206-2253 | whoever is still absent at the deadline is gone after an accepted cleanup |
| Grace.CleanedHasOwner | server/src/actors.rs:1115-1150 | after a cleanup the table is retired, or somebody who still sits there owns it |
| Grace.Lobby.Mark | server/src/actors.rs:2206-2230 | the loop over the roster keeps running deadlines, starts those of the newly absent and drops those of the present |
| Grace.Lobby.Cleanup | server/src/actors.rs:2161-2253 | a cleanup removes exactly the expired, and retires a table that nobody is left at |
| Drain.DrainTable | server/src/actors.rs:2002-2012 | a table answers well only if it retired or the store holds all that it held in memory, with the time charged and the allowance granted; otherwise it rejected the change and wrote nothing, or froze; it does answer well if nothing fails and its last change can be saved with nothing more to archive |
| Drain.AskTable | server/src/lifecycle.rs:190-212 | asking one table leaves the other tables' answers standing, and leaves able to stop whichever was |
| Drain.DrainGameRuntime | server/src/lifecycle.rs:178-265 | success means that every quiesced table retired or is durable as it is in memory; the maintenance close is sent only then, and is sent if nothing fails and every table is reached and can stop |
| Shutdown.ClosingIsDurable | server/src/lifecycle.rs:178-265 | whatever the tables write, fail or freeze in between, in every run the close comes after a good answer of each table asked, which is gone or in the store exactly as its actor last held it |
| Shutdown.SafeStays | server/src/actors.rs:2039-2053 | what a drain found durable stays in the store unchanged, whatever other tables write afterwards |
| Shutdown.ChangeFollows | server/src/actors.rs:1779-1876 | every change of an actor, however it comes out, is a sequence of these steps |
| Shutdown.DrainFollows | server/src/actors.rs:2002-2012 | so is whatever asking one table comes to, with the answer that the table gave |
| Transport.StepKeepsInv | server/src/transport.rs:186-279 | every step of concurrent senders and of the writer keeps the bytes accounted for and the frames in order |
| Transport.EveryByteIsSomewhere | server/src/transport.rs:186-279 | each byte of the session's and of the server's budget is free, paid for a frame, or held by a frame on its way |
| Transport.RestingSessionIsWhole | server/src/transport.rs:186-279 | whatever was refused or cancelled, a session at rest has its whole budget again |
| Transport.OfferedInOrder | server/src/web.rs:617-677 | the websocket is offered a prefix of what was sent, with a close frame of the queue last, of which at most the last frame was given up; then at most an explanation, only if the session was replaced, and at most one final close |
| Transport.BrowserSees | server/src/web.rs:617-677 | if nothing goes over the wire after a close, the browser can see those frames, and what the writer adds exactly if none of them was a close frame |
| Farewell.UndisturbedClose | server/src/transport.rs:218-279 | a close that begins while no other call holds a frame it could send adds its messages and then its close frame and nothing else; once that is written, all of it was |
| Farewell.LateFrameExactly | server/src/transport.rs:186-279 | in every reachable state a frame can still be queued behind the frame of a close that begins if and only if no message of the close is too long and another call holds a frame for the session that is not |
| Farewell.LateFrameFollowsClose | server/src/transport.rs:186-279 | such a run, with one call that passed the check before |
| Transport.Outlet.Send | server/src/transport.rs:190-216 | a frame is queued exactly if its size, both budgets and the queue allow it; otherwise nothing is kept and the session is given up |
| Transport.Outlet.EmitText | server/src/transport.rs:186-216 | nothing is sent to a session that is gone or closing, and one that is too slow is given up |
| Transport.Outlet.SayGoodbye | server/src/transport.rs:218-279 | a receipt is given if and only if all of the messages and the close frame fit, and then exactly they were queued |
| Preferences.StepKeepsInv | packages/client-new/src/connection.ts:194-285 | open barriers match what is under way, and each command sent is to be taken, was carried out, or is being warned about |
| Preferences.OpenBarriers | packages/client-new/src/connection.ts:194-217 | open barriers are those that the server has still to answer, has refused, or has answered |
| Preferences.BarriersCount | packages/client-new/src/connection.ts:194-217 | there are as many as were sent on this socket less the answers received |
| Preferences.SavedSettingsAreSaved | packages/client-new/src/connection.ts:380-392 | settings are shown as saved only if the server carried out, without a warning, every change since saving began |
| Preferences.CompletedCommandsAreDone | packages/client-new/src/connection.ts:398-404 | a command is reported as done only if the server carried it out without a warning |
| Preferences.AnsweredIsFine | server/src/web.rs:718-766 | when an answer arrives, everything that the client still follows and sent before its barrier was carried out or its warning came first |
| Preferences.Connection.Setting | packages/client-new/src/connection.ts:254-285 | a change is sent with its barrier behind it, and begins a new episode of saving only if none is running |
| Preferences.Connection.SendWithConfirmation | packages/client-new/src/connection.ts:137-233 | a command is sent with its barrier exactly if the socket is open and no other command waits |
| Preferences.Connection.OnWarning | packages/client-new/src/connection.ts:373-379 | a warning fails what the first open barrier stands for |
| Preferences.Connection.OnSynced | packages/client-new/src/connection.ts:380-404 | an answer takes the first open barrier, and only the latest change moves saving to saved or failed |
| Preferences.Connection.ClearPreferenceRequests | packages/client-new/src/connection.ts:567-583 | whatever was not confirmed has failed, and nothing waits any more |

## Left out

Stated weaker than the code, or on an assumption:

- Random.GoRandom.Intn: the loop over rejected draws has a limit, `fuel`, because no bound on the number of rejections can be proved; `FuelOnlyDelays` says that the limit changes no draw that was made.
- Random.GoRandom.Shuffle: carries the same limit for each of its draws.
- Authority.StepKeepsInv: clocks run at equal rates, tokens are never drawn twice, and a confirmation of the append-only file is true.
- Cookie.CookieRoundTrip: the keyed digest is a function value of 32 bytes; nothing is said about forging it.
- Countdown.ReadHex: takes the digits, the number of fractional ones and the exponent; the pattern that finds them, decimal countdowns and the final multiplication by a power of two are not part of this model.
- Recovery.Store.Restore: requires a store that amounts to something, which `WellFormedSettles` gives for every well-formed one in every order; the refresh of pregame statistics during recovery is not part of this model.
- Conflicts.OrderMattersExactly: that different effects show in the result supposes that no review with a waiting edit is about to hand its players over; no command of the server asks for both.
- Transfer.Transfer: between the requests of a handover other tables write as they like, but not to the records of its two tables, and they journal neither of the two; each table of the server has its own records.
- Playing.OneTablePerPlayer: no table freezes, which `Freezing` adds, and the hub is not closing.
- Freezing.SecondTableExactly: whom a frozen split or leave would have moved or removed counts as playing where the frozen table still shows them; what recovery makes of its journal is said by `Transfer.HandoverIsAtomic`.
- Clock.ClocksBalance: what a timeout forgives by raising a clock to zero is part of the account.
- Transport.BrowserSees: assumes that the websocket library sends nothing after a close frame.
- SeedHash.SeedsDifferingInOneByte: says nothing about two seeds of which only one is a legacy seed.
- Drain.DrainGameRuntime: actors are asked one after the other; the timeouts around each answer are parameters. `Shutdown` has them at work at the same time.
- Preferences.CompletedCommandsAreDone: the one command that is rejected without a warning, a clue that touches no card in a speedrun, is never sent with a confirmation.
- Messages.PrepareChat: the database sequence is given as the numbers it hands out.

Not modelled:

- The rules of the game: actions, projections and the replay of archived games (`hanabi_engine`, `Game::replay`, `Store::historical`). A game is opaque data, and what the engine answers is a parameter.
- SQL text, pools, lock order, JSON, payload sizes of 4 MB (whether a checkpoint is small enough is given) and the wire formats of Redis.
- Digests, password hashing and token generation.
- Input budgets: they are taken and given back like those of `Transport`, without frames in order.
- Stopping flags, signals, metrics, error reports, HTTP and TLS.
- Statistics, seeds of following games, notes, typing, tips for variants, chat commands, formatting and the user interfaces.
- Bots, which may play at any number of tables.
