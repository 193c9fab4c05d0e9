# A model of the game server's cores

This project models the parts of a tower-defence game server in which state, loops or arithmetic have to agree
with a short reference meaning, and proves that they do:

- **Bytes to packets** (`Wire`, `Packets`, `ReceiveBuffers`, `Framing`, `RateLimiter`, `Verdicts`, `Sessions`,
  `AttackBatch`): packets written, cut into arbitrary chunks, framed, rate-limited and decoded again.
- **Two concurrent protocols as step systems** (`SendQueue`, `ThreadPools`, `RoomManagers`): every critical section
  of a mutex is one function; a class runs it in place, and a transition system interleaves the sections of all
  threads, notifications and spurious wake-ups.
- **The object pool** (`ObjectPools`): reference counts as handles outside plus entries in the rotating queue, with
  handles copied and dropped while a scan is under way.
- **Continuous code** (`Geometry`, `Collision`, `Projectiles`, `ShotLaws`, `Movement`, `Debuffs`, `DebuffTicks`,
  `Enemies`, `EnemyLaws`, `MinionStats`, `StatLaws`): swept collision, straight and chasing projectiles, walking along
  waypoints, timed debuffs and buffs, the cached minion stat.
- **The room** (`WaveManagers`, `SpawnTimes`, `EnemyManagers`, `TargetLaws`, `Sorting`, `Boards`, `BoardLaws`,
  `RoomStates`, `Rooms`, `Handlers`): its managers, its requests and its tick, every enemy with its own debuffs and
  waypoints.
- **What a request and an update of the room do, seen from before and after** (`RoomRequests`; `RoomFates`: each enemy
  in an update in which nobody hits; `RoomHits`: what one hit more changes; `RoomSync`: what is sent; `RoomUpgrades`).
- **What every run of the room keeps** (`RoomLaws`: the life cycle; `RoomEnemies`: departures and the alive count;
  `RoomWaves`, `RoomWalks`, `RoomTicks`, `RoomEnds`: how, when and how often a wave ends; `RoomAttacks`: the attack
  events; `RoomLedger`: the gold). Every run starts from a new room, for every stage, data and square root.
- **Concrete runs** (`MinionPlay`, `RoomScenes`, `RoomRuns`): two players, a bought minion and its skill, in which the
  wave ends as it should not.

## How it is built

An object whose methods update its fields is a class with those fields. Its methods are proved against a function
from old state to new state (`State() == Ticked(world, old(State()), ...)`), and what the design promises is proved
about that function, for every input, every run or every interleaving. `Verdicts`, `ShotLaws`,
`EnemyLaws`, `StatLaws`, `SpawnTimes`, `TargetLaws`, `BoardLaws`, `RoomRequests`, `RoomFates`, `RoomHits`, `RoomSync`
and `RoomUpgrades` say what those functions compute without using them: by what was there before and after, by
counting, or by a definition of their own. Minions and enemies inside their managers, and the pool's objects, are
values or numbers; a change through a shared pointer is an update of the manager's map.

Floats are reals. The square root is a function known only by its law. Integers that wrap in the program wrap here:
the 16-bit size and string-length fields, the 32-bit counts, the unsigned spawn counter. `static_cast<int>` of a
fraction truncates toward zero. Random choices, the clock, the order in which hash maps are walked, and what minions
and projectiles hit are inputs, so that every statement is about all of them. Where a run is exhibited, its hits are
what a minion's skill does to the enemies it finds in range (`MinionPlay.Plays`, with the enemy manager's own choice
`EnemyManagers.Nearest`; the minion's data ask for no charge before the skill, and its cooldown is two seconds). Which callbacks an enemy's update fires
is computed from its health, debuffs, stun and waypoints (`Enemies.UpdateBody`). A walk visits every enemy once: the
class computes such an order (`Rooms.Room.VisitEnemies`), and the statements about runs assume no more of it than that
it repeats nobody.

What the room broadcasts is a log (`State.log`); in the class it is a ghost field.

Packet handlers are polled and rooms are updated by the same thread, and the tick waits for every room, so a run of a
room is a sequence of whole requests and whole updates (`RoomStates.Op`). `RoomManagers` proves the barrier this
rests on, and shows what an exception that escapes `Room::Update` does to it.

## Where the code does not do what one would expect

Each of these is proved with the exact condition and, where it has one, a concrete instance:

- A spawn entry with count 0 wraps the unsigned spawn counter (`WaveManagers.WrapIff`).
- One enemy update can fire both the dead and the arrival callback (`Enemies.BothCallbacksIff`), and over every run an
  enemy departs both ways exactly if one of its updates does so (`RoomEnemies.DepartsTwiceIff`). It is then queued for
  removal twice and counted twice. At any departure the wave is taken to be over exactly if spawning is finished and
  no more enemies are live than are queued more than once (`RoomWaves.CheckConcludes`). So an update announces the end
  while somebody is left exactly if, at a departure in its walk that does not break the wall, as many have departed as
  were live, but not all of them (`RoomTicks.EndsEarlyIff`). A run in which this happens: two players, a bought minion
  and its damage over time (`RoomRuns.EndsWithOneAlive`).
- So the end of one wave can be announced more than once. A walk announces it at every departure at which the check
  succeeds, and the update once more if after the walk the last live enemy is removed (`RoomEnds.UpdateAnnounces`);
  an update announces it more than once exactly if a further wave is to come and the check succeeds at two departures,
  or at one that leaves somebody whom the projectiles then remove. It announces the stage lost more than once exactly
  if the wall breaks, then the check succeeds, then the wall is broken again (`RoomEnds.UpdateEndsTwiceIff`; over any
  stretch of a run: `RoomEnds.EndsAtMostOnceIff`). Of three enemies one dying and arriving and then the others dying
  announces it twice (`RoomEnds.FourDepartures`); runs: `RoomRuns.EndsThrice`, `RoomRuns.LostTwice`.
- A stage that has been lost can still be announced as a finished wave. When the wall breaks, the walk goes on, and the
  check for the end of the wave (src/Game/Room.cpp:804-835) does not ask whether the stage has ended: the room goes from EndStage
  to Intermission until the cleanup, and its projectiles are updated once more. An update does so exactly if a further
  wave is to come, spawning is finished, and the wall breaks before a departure, not breaking it, with which as many
  have departed as were live (`RoomTicks.EndsAfterLossIff`; a run: `RoomRuns.EndsAfterTheLoss`).
- The collision test is exact above its cutoff or when nothing moves, and otherwise misses some enemy that the move
  grazes (`Collision.ExactIff`), by at most a thousandth (`Collision.ShortMoveError`).
- A packet, a string or an attack batch that does not fit its 16-bit size is not recovered
  (`Framing.RoundTripIff`, `Packets.StringRoundTripIff`, `AttackBatch.BatchRecoveredIff`).
- An object released twice is never handed out again: in every reachable state a queued object can still be handed out
  exactly if it has one entry in the queue (`ObjectPools.HandedOutIff`).
- A lone player can start a wave before the game has begun: `WaveStart` has no guard on the phase
  (`RoomRuns.LonePlayerStarts`).
- An exception that escapes one room's update lets the tick end while another room is still being updated
  (`RoomManagers.ThrowBreaksBarrier`).
- `Minion::AddMaxTargetsBuff` adds to the attack-speed list (`MinionStats.Minion.AddMaxTargetsBuff`), so the stat's
  list of max-targets buffs is never filled, nor aged.

## Model

| member | source | states |
|---|---|---|
| Packets.PacketWriter.constructor | src/Network/Packet/PacketWriter.cpp:3-7 | a new writer has room for the header and an empty payload |
| Packets.PacketWriter.Write | src/Network/Packet/PacketWriter.cpp:9-23 | the bytes are appended to the payload; what was there stays |
| Packets.PacketWriter.WriteString | src/Network/Packet/PacketWriter.cpp:25-38 | appends the length modulo 65536 and that many characters |
| Packets.PacketWriter.Finish | src/Network/Packet/PacketWriter.cpp:40-51 | the buffer is the finished packet of this kind and payload, its size modulo 65536 in the header |
| Packets.PacketReader.Read | include/Network/Packet/PacketReader.h:23-38 | takes the next bytes, or fails without moving exactly when too few are left |
| Packets.PacketReader.ReadString | include/Network/Packet/PacketReader.h:40-59 | what it returns and leaves is the decoding of the rest, including the short-length failures |
| Packets.StringRoundTripIff | src/Network/Packet/PacketWriter.cpp:25-38 | a written string reads back, with what follows it untouched, exactly if it is shorter than 65536 |
| Wire.HeaderBytes | src/Network/Packet/PacketWriter.cpp:40-51 | the bytes of a finished packet: size, then kind, each low byte first, then the payload |
| Wire.NumberBytes | src/Network/Packet/PacketWriter.cpp:9-23 | a 32-bit number goes out low byte first |
| ReceiveBuffers.ReceiveBuffer.Append | src/Network/Packet/ReceiveBuffer.cpp:5-15 | received bytes are queued behind those not yet consumed |
| ReceiveBuffers.ReceiveBuffer.Remove | src/Network/Packet/ReceiveBuffer.cpp:27-39 | drops exactly the given number of bytes from the front, or all there are |
| Framing.ExtractAppend | src/Network/Session.cpp:86-166 | bytes that arrive later never change what was extracted before; they continue from the unconsumed rest |
| Framing.ChunkingIrrelevant | src/Network/Session.cpp:64-81 | however a stream is cut into chunks, the packets extracted and the verdict are those of the whole stream |
| Framing.EncodedRoundTrip | src/Network/Session.cpp:86-166 | packets that fit and are known, finished and sent back to back, come out as the original list with nothing left |
| Framing.RoundTripIff | src/Network/Packet/PacketWriter.cpp:40-51 | one finished packet survives the trip exactly if its total size fits the 16-bit field |
| Framing.StreamDelivery | src/Network/Session.cpp:86-166 | writer, any chunking and framing together lose, add and reorder nothing |
| RateLimiter.AdmitRefinesHistory | src/Network/Session.cpp:124-147 | the pruned deque decides as the whole dispatch history would: admitted exactly if not blocked and fewer than limit - 1 dispatches lie in the last second |
| RateLimiter.WindowBound | src/Network/Session.cpp:131-147 | over any run with a monotone clock, every half-open second holds at most limit - 1 dispatches |
| RateLimiter.RunRefinesHistory | src/Network/Session.cpp:124-157 | every decision of every run is the one its full history dictates |
| Verdicts.Verdict | src/Network/Session.cpp:124-147 | over any run with a monotone clock, from the readings and the admitted flags alone: a packet is dispatched exactly if no block is in force and fewer than limit - 1 were dispatched in the last second |
| Verdicts.BlockHolds | src/Network/Session.cpp:138-145 | a reading that blocks has every later one refused for as long as the configuration says |
| Verdicts.BlockEnds | src/Network/Session.cpp:125-135 | the first reading after the block is admitted, unless the limit admits nothing |
| Sessions.Session.ProcessPackets | src/Network/Session.cpp:86-166 | consumes exactly the whole packets at the front, disconnects exactly when framing breaks down, dispatches exactly those the limiter admits |
| Sessions.Session.Receive | src/Network/Session.cpp:124-164 | one framed packet costs one clock reading and is dropped, blocked or dispatched as the limiter's run says |
| Sessions.Session.PruneTimestamps | src/Network/Session.cpp:131-135 | the popping loop leaves exactly the stamps younger than a second |
| Sessions.Session.ReadLoop | src/Network/Session.cpp:60-83 | over any chunks, what is dispatched is the admitted part of the undivided stream's packets, and no second sees limit dispatches |
| AttackBatch.WriteBatch | src/Game/Room.cpp:1062-1100 | draining the queue through one writer gives the finished packet of the whole batch in order |
| AttackBatch.EventBytes | src/Game/Room.cpp:1074-1096 | where each field of an attack event is on the wire, and its targets in order |
| AttackBatch.ReadBatch | include/Network/Packet/PacketReader.h:23-38 | a decoder of field reads computes the parse of the payload, failing where a read overflows |
| AttackBatch.BatchRecoveredIff | src/Game/Room.cpp:1074-1096 | a peer that frames and decodes the packet gets the events back exactly if 8 plus 14 + 4 * targets per event is at most 65535 |
| SendQueue.SendChannel.Send | src/Network/Session.cpp:168-184 | one critical section: push, and become the starter exactly if nobody was sending |
| SendQueue.SendChannel.DoSend | src/Network/Session.cpp:194-208 | one critical section: take the front to write, or stop sending on an empty queue |
| SendQueue.SendChannel.OnWritten | src/Network/Session.cpp:219-248 | one critical section: pop, then continue, stop, or after an error give up the queue |
| SendQueue.EveryInterleaving | src/Network/Session.cpp:168-266 | over every interleaving, errors included: at most one write in flight and its packet still at the front, one token exactly while sending, and packets leave in lock order |
| SendQueue.NoErrorDelivery | src/Network/Session.cpp:168-266 | without a write error, the completed writes followed by the queue are all packets sent, in lock order |
| SendQueue.Drains | src/Network/Session.cpp:194-266 | every step but a new Send uses up work, and while anything is queued such a step is possible |
| SendQueue.QuietRunBounded | src/Network/Session.cpp:194-266 | so a run without new sends is no longer than the work at its start |
| SendQueue.Delivers | src/Network/Session.cpp:168-266 | anybody may send at any time, and from wherever an interleaving stands some continuation sends everything queued, in order, and comes to rest |
| ThreadPools.ThreadPool.Enqueue | src/Core/ThreadPool.cpp:38-56 | accepts exactly while not stopped, behind the tasks already queued |
| ThreadPools.ThreadPool.WorkerSection | src/Core/ThreadPool.cpp:64-81 | one critical section: the oldest task, or sleep, or exit exactly when stopped and empty |
| ThreadPools.ThreadPool.Stop | src/Core/ThreadPool.cpp:20-27 | raises the flag and leaves the queue |
| ThreadPools.EveryInterleaving | src/Core/ThreadPool.cpp:38-85 | tasks start in acceptance order, and each accepted task is queued, on one worker or finished, and finished at most once |
| ThreadPools.NoLostWakeUp | src/Core/ThreadPool.cpp:54-72 | while a task is queued, some worker is awake or a notification is still to come |
| ThreadPools.DrainedAtExit | src/Core/ThreadPool.cpp:20-36 | when every join has returned, the queue is empty and each accepted task has run exactly once |
| ThreadPools.ShutdownProgress | src/Core/ThreadPool.cpp:20-36 | once stopped, every step uses up work and one is possible until all have exited: the joins return |
| ThreadPools.ShutdownEnds | src/Core/ThreadPool.cpp:20-36 | wherever an interleaving stands, stopping refuses later tasks and some continuation has all workers exit with every accepted task finished once |
| ThreadPools.NoSpinning | src/Core/ThreadPool.cpp:54-85 | each step of a worker uses up work, so workers come to rest; each accepted task calls for one notification |
| ThreadPools.StartIsIdle | src/Core/ThreadPool.cpp:3-18 | a new pool has at least one worker, all awake, and nothing pending |
| RoomManagers.TickComplete | src/Game/RoomManager.cpp:116-152 | when UpdateRooms returns, every room of its snapshot has had exactly one update of this tick finish, without throwing, and no worker is busy |
| RoomManagers.TickUpdatesEveryRoom | src/Game/RoomManager.cpp:116-152 | from its beginning to its end a tick updates every room there was at its beginning, once, and no other, whichever rooms come and go meanwhile |
| RoomManagers.RemovedIsStillUpdated | src/Game/RoomManager.cpp:116-135 | a concrete run in which a room removed during a tick is still updated by it |
| RoomManagers.TickAdvances | src/Game/RoomManager.cpp:137-152 | every move of UpdateRooms uses up work and no other move adds any; after the end the next tick can begin |
| RoomManagers.RoomsNeverOverlap | src/Game/RoomManager.cpp:137-152 | over all ticks and interleavings no room is updated by two workers at once |
| RoomManagers.WaitNotStuck | src/Game/RoomManager.cpp:149-152 | while a future is outstanding, some worker or notification can move |
| RoomManagers.EscapeMeansThrow | src/Game/RoomManager.cpp:149-152 | UpdateRooms is left early only because an update of this very tick threw |
| RoomManagers.ThrowBreaksBarrier | src/Game/RoomManager.cpp:149-152 | and then another room may still be running: a concrete run of two rooms on two workers |
| ObjectPools.ObjectPool.Rotate | include/Game/Pool/ObjectPool.h:30-45 | takes out the oldest entry nobody else holds, if any, and leaves the others in their order |
| ObjectPools.ObjectPool.Acquire | include/Game/Pool/ObjectPool.h:23-55 | hands out a handle that is the only one, recycled if possible and else new |
| ObjectPools.RecyclesFirst | include/Game/Pool/ObjectPool.h:30-45 | what is recycled is exactly the first entry that is the only handle to its object |
| ObjectPools.ObjectPool.Release | include/Game/Pool/ObjectPool.h:57-66 | queues the object behind the others; nobody's handle goes away |
| ObjectPools.NeverAliased | include/Game/Pool/ObjectPool.h:23-66 | over every interleaving of scans, releases, copies and drops, double releases included, what Acquire hands out has no other holder and no entry left, and the queue is the one its scan began with, less that entry and in the same order |
| ObjectPools.PickedUnshared | include/Game/Pool/ObjectPool.h:30-45 | what a scan picks nobody else held when it was examined, and it had one entry |
| ObjectPools.HandlesConserved | include/Game/Pool/ObjectPool.h:23-66 | over every interleaving an object has one handle for each time it was handed out or copied, less those dropped, and one entry for each release, less the times it was recycled |
| ObjectPools.DoubleReleaseIsForGood | include/Game/Pool/ObjectPool.h:57-66 | an object released twice has two entries for good and is never handed out again |
| ObjectPools.HandedOutIff | include/Game/Pool/ObjectPool.h:23-66 | in every reachable state an object in the queue is handed out by some continuation exactly if it has one entry there |
| Geometry.ClampedProjectionIsNearest | src/Game/Skill/Projectile.cpp:765-794 | of all points of a segment, the clamped projection is nearest to the enemy |
| Collision.HitsIffTouches | src/Game/Skill/Projectile.cpp:688-817 | above the cutoff, the test succeeds exactly if the two circles overlap at some time of the move |
| Collision.HitsImpliesTouches | src/Game/Skill/Projectile.cpp:734-750 | at any length, a reported hit is an overlap |
| Collision.NoTunnelling | src/Game/Skill/Projectile.cpp:550-553 | however a straight flight is cut into moves above the cutoff, some move hits exactly if one move over the whole flight would |
| Collision.ExactIff | src/Game/Skill/Projectile.cpp:734-750 | the test is right about every enemy exactly if the move is above the cutoff or is no move at all |
| Collision.ShortMoveError | src/Game/Skill/Projectile.cpp:734-750 | an enemy that a short move touches is at most a thousandth out of reach of its end, hit or not |
| Projectiles.Projectile.OnHit | src/Game/Skill/Projectile.cpp:819-915 | who is struck, and whether the shot is gone after, by hit type, chase and target; nobody twice |
| Projectiles.Projectile.CheckCollision | src/Game/Skill/Projectile.cpp:598-686 | the result depends on the enemies, not on the order of the snapshot: it is the sweep in id order |
| Projectiles.Projectile.Direct | src/Game/Skill/Projectile.cpp:556-596 | expires, or moves on and strikes what the sweep over its move strikes, in id order |
| Projectiles.Projectile.Chase | src/Game/Skill/Projectile.cpp:454-554 | returns without a target, or goes onto it or straight towards it and strikes what the sweep over this move strikes |
| Projectiles.ChaseApproaches | src/Game/Skill/Projectile.cpp:502-548 | a chasing step that does not reach the target shortens the distance by exactly its length |
| Projectiles.ChaseArrives | src/Game/Skill/Projectile.cpp:502-554 | a chasing impact shot whose step reaches its target strikes it, and nobody else, and is gone |
| Projectiles.Projectile.ReturnToPool | src/Game/Skill/Projectile.cpp:917-946 | a returned shot is inactive and forgets whom it hit; a second return does nothing |
| Projectiles.PierceStrikesAllCrossed | src/Game/Skill/Projectile.cpp:644-685 | a straight piercing shot strikes exactly the enemies it crosses and has not struck, and flies on |
| Projectiles.ImpactStrikesFirst | src/Game/Skill/Projectile.cpp:644-685 | a straight impact shot strikes the lowest id it crosses, and only that one, and is gone |
| Projectiles.ChaseImpactStrikesTarget | src/Game/Skill/Projectile.cpp:844-893 | a chasing impact shot passes through everyone but its target, which it strikes exactly if it crosses it |
| Projectiles.NobodyStruckTwice | src/Game/Skill/Projectile.cpp:864-870 | over any flight, direct or chasing a moving target, among any enemies, no enemy is struck twice |
| Projectiles.PierceFlight | src/Game/Skill/Projectile.cpp:556-596 | frame rate does not matter to a piercing flight: a standing enemy is struck exactly if the whole way swept at once would hit it |
| ShotLaws.StruckIff | src/Game/Skill/Projectile.cpp:598-915 | whatever the kind of shot, a sweep strikes exactly those it crosses, has not struck and does not spare, up to the first that ends the flight |
| ShotLaws.SortedById | src/Game/Skill/Projectile.cpp:598-643 | the sweep goes over the enemies in id order |
| ShotLaws.ReturnedIff | src/Game/Skill/Projectile.cpp:454-596 | a shot is returned exactly if its target is gone or its time is up, striking nobody, or it has struck what it was for; what is returned is blank |
| ShotLaws.FliesOn | src/Game/Skill/Projectile.cpp:502-548 | a shot that flies on is straight on its way by speed times time, or nearer to its target by that, heading for it, or on it |
| ShotLaws.PierceFliesItsTime | src/Game/Skill/Projectile.cpp:556-570 | over any updates a straight piercing shot flies exactly as long as its time lasts |
| ShotLaws.StaysReturned | src/Game/Skill/Projectile.cpp:917-946 | a returned shot stays as it is, strikes nobody, and returning it again does nothing |
| Movement.StepShortens | src/Game/Enemy/Enemy.cpp:177-182 | a step that does not reach the waypoint brings it nearer by exactly its length |
| Movement.MoveProgress | src/Game/Enemy/Enemy.cpp:145-182 | every step before the waypoints run out goes on to the next one or shortens the distance by exactly the step |
| Movement.RouteShrinks | src/Game/Enemy/Enemy.cpp:157-182 | the remaining route never gets longer, the skip of a near waypoint included |
| Movement.ArrivalBound | src/Game/Enemy/Enemy.cpp:137-183 | with steps of at least delta, the arrival callback has fired after more steps than waypoints left plus route length over delta |
| EnemyLaws.MultiplierIsPace | src/Game/Enemy/Enemy.cpp:224-282 | the multiplier left after any time is the product of what each slow still on takes: an independent definition |
| EnemyLaws.WalksItsPace | src/Game/Enemy/Enemy.cpp:128-183 | an unstunned live enemy walks exactly its speed times its pace times the time, straight at its waypoint, and is there exactly if that reaches it |
| EnemyLaws.StandsStill | src/Game/Enemy/Enemy.cpp:128-150 | a stunned enemy, and one past its last waypoint, stays where it is; the latter arrives |
| EnemyLaws.StartsFree | src/Game/Enemy/Enemy.cpp:16-39 | a new enemy is whole and walks at full speed from its place to the second point of its path |
| Debuffs.SpeedIsProduct | src/Game/Enemy/Enemy.cpp:271-282 | the speed multiplier is the product of the ratios of the slows, between 0 and 1; going through a percentage loses nothing |
| Debuffs.OrderIrrelevant | src/Game/Enemy/Enemy.cpp:273-279 | the order in which slows were applied does not matter |
| Debuffs.SlowsAgeTogether | src/Game/Enemy/Enemy.cpp:224-232 | time passing in two steps or in one leaves the same slows |
| Debuffs.SlowsFrameIndependent | src/Game/Enemy/Enemy.cpp:224-232 | over any frames the slows left are those that outlast the total time |
| Debuffs.FrameSettles | src/Game/Enemy/Enemy.cpp:248-268 | one frame either reduces what the damage debuffs still owe by exactly the health lost, or is fatal and the debt was |
| Debuffs.DebuffsSettle | src/Game/Enemy/Enemy.cpp:248-268 | over any frames an enemy survives exactly if the whole ticks owed are less than its health, and has lost exactly those |
| DebuffTicks.DebuffsLeft | src/Game/Enemy/Enemy.cpp:248-268 | on an enemy still alive, after any frames exactly the debuffs that last longer than the total time are left, each with its rest and a fraction of a second elapsed |
| DebuffTicks.DebuffTicks | src/Game/Enemy/Enemy.cpp:250-267 | each debuff, whatever the others, has ticked once per whole second of its lifetime, what had elapsed before included |
| DebuffTicks.LifetimeIsFirst | src/Game/Enemy/Enemy.cpp:250-267 | the lifetime of an expired debuff is the first running total of the frames to reach its duration |
| DebuffTicks.RunningDebuff | src/Game/Enemy/Enemy.cpp:250-267 | a debuff still running has its duration less the total time left, has ticked the whole seconds of it, and keeps the fraction |
| Enemies.Enemy.constructor | src/Game/Enemy/Enemy.cpp:16-39 | a new enemy is alive, free of debuffs and heading for its second waypoint |
| Enemies.Enemy.ApplySlow | src/Game/Enemy/Enemy.cpp:185-194 | a slow without strength or duration is ignored, and the cached percentage stays that of the slows |
| Enemies.Enemy.ApplyStun | src/Game/Enemy/Enemy.cpp:196-205 | the longer of two stuns counts |
| Enemies.Enemy.ApplyDamageOverTime | src/Game/Enemy/Enemy.cpp:207-215 | a debuff without damage or duration is ignored; another starts with no time elapsed |
| EnemyLaws.SlowTakesPace | src/Game/Enemy/Enemy.cpp:185-194 | a slow takes its percentage of the pace for as long as it lasts, and one without strength or duration nothing |
| EnemyLaws.StunHolds | src/Game/Enemy/Enemy.cpp:196-205 | a stun holds until the longer of it and the one before is over |
| EnemyLaws.StunLasts | src/Game/Enemy/Enemy.cpp:234-246 | over any frames a stun lasts its time |
| EnemyLaws.BurningCosts | src/Game/Enemy/Enemy.cpp:207-268 | burning adds its damage once for every whole second of its lifetime to what the enemy owes, over any frames |
| Enemies.Enemy.RecalculateSlowPercent | src/Game/Enemy/Enemy.cpp:271-282 | the cached percentage is that of the product over all slows in force |
| Enemies.Enemy.TakeDamage | src/Game/Enemy/Enemy.cpp:300-331 | the dead callback fires exactly when this damage is what kills |
| EnemyLaws.DamageAdds | src/Game/Enemy/Enemy.cpp:300-331 | damage adds up until it kills; a dead enemy takes none |
| Enemies.Enemy.UpdateSlows | src/Game/Enemy/Enemy.cpp:224-232 | erasing while walking the list leaves exactly the unexpired slows, each older by the step |
| Enemies.Enemy.UpdateDots | src/Game/Enemy/Enemy.cpp:248-268 | the nested loops give the health and the debuffs left that ageing them one after the other gives |
| Enemies.Enemy.UpdateDebuffs | src/Game/Enemy/Enemy.cpp:217-269 | slows, then stun, then damage; the dead callback is due exactly if this kills |
| Enemies.Enemy.UpdateMovementLocked | src/Game/Enemy/Enemy.cpp:128-183 | the position and waypoint after one step at the slowed speed; arrival exactly when the waypoints were already used up |
| Enemies.Enemy.Update | src/Game/Enemy/Enemy.cpp:70-100 | the enemy after one update and which of the two callbacks fired |
| Enemies.UpdateKeepsWellformed | src/Game/Enemy/Enemy.cpp:70-100 | between updates every debuff is under way and the cached percentage is that of the slows |
| EnemyLaws.AfflictedStaysWellformed | src/Game/Enemy/Enemy.cpp:185-215 | new debuffs keep the invariant of an enemy in play |
| Enemies.DeadCallbackAtMostOnce | src/Game/Enemy/Enemy.cpp:81-82 | over any run the dead callback fires at most once, and after its update neither callback ever fires |
| Enemies.FrameIndependent | src/Game/Enemy/Enemy.cpp:217-282 | survival, health lost and speed after any frames depend only on the debuffs and the frames' running totals |
| Enemies.BothCallbacksIff | src/Game/Enemy/Enemy.cpp:84-99 | both callbacks fire in one update exactly if the debuffs owe the enemy's health in it, no stun outlasts it and the waypoints were used up |
| Enemies.BothCallbacksHappen | src/Game/Enemy/Enemy.cpp:84-99 | such an enemy exists, on a path of one point |
| WaveManagers.WaveManager.StartWave | src/Game/WaveManager.cpp:70-98 | goes on to the next wave, from its start, or does nothing after the last |
| WaveManagers.WaveManager.Reset | src/Game/WaveManager.cpp:100-110 | no wave has been started and nothing is to be spawned |
| WaveManagers.WaveManager.Update | src/Game/WaveManager.cpp:32-68 | the counters after one update and the enemy spawned, if any, failed spawns included; the wave is always in range |
| WaveManagers.WaveManager.SpawnNextEnemy | src/Game/WaveManager.cpp:112-217 | a spawn takes one from the unsigned count and goes on to the next entry at 0; a failed one changes nothing |
| WaveManagers.UpdateStaysInRange | src/Game/WaveManager.cpp:44-54 | the wave looked up exists, after any updates and starts |
| WaveManagers.SpawnsExpandedList | src/Game/WaveManager.cpp:32-217 | if every count is at least 1, the enemies spawned are a prefix of the list with each id repeated count times, and spawning is finished exactly at its end |
| WaveManagers.WrapIff | src/Game/WaveManager.cpp:56-60 | the unsigned counter can wrap in a wave exactly if some entry has count 0 |
| SpawnTimes.SpawnsWhenDue | src/Game/WaveManager.cpp:32-68 | from the turns and the list alone: an update spawns exactly if it can, something is left, and the time since the last try or the start comes to the delay of the entry it has come to; and it spawns that |
| SpawnTimes.SpawnsApart | src/Game/WaveManager.cpp:62-65 | no spawn follows another, or a failed try, sooner than its entry's delay |
| SpawnTimes.FinishedIff | src/Game/WaveManager.cpp:44-68 | spawning is finished exactly when every entry has spawned as often as it should, of an empty list at the first update |
| SpawnTimes.StartBegins | src/Game/WaveManager.cpp:70-98 | a start begins the next wave whatever became of the one before, and after the last wave nothing |
| EnemyManagers.EnemyManager.SpawnEnemy | src/Game/Enemy/EnemyManager.cpp:22-47 | a fresh id, used up even if the enemy is unknown |
| EnemyManagers.EnemyManager.RemoveEnemy | src/Game/Enemy/EnemyManager.cpp:49-53 | removal is queued, and the enemy stays |
| EnemyManagers.EnemyManager.Clear | src/Game/Enemy/EnemyManager.cpp:55-78 | nobody in play and nobody to be removed; ids are not reused |
| EnemyManagers.EnemyManager.Purge | src/Game/Enemy/EnemyManager.cpp:104-124 | everyone queued is gone, and nobody else, however often queued |
| EnemyManagers.EnemyManager.GetAliveEnemyCount | src/Game/Enemy/EnemyManager.cpp:133-143 | the count that decides the end of a wave, never below 0 |
| EnemyManagers.EnemyManager.FindEnemyInRange | src/Game/Enemy/EnemyManager.cpp:145-231 | strictly sorted by distance and id, active and in range, nobody nearer left out, all if maxTargets is not positive |
| EnemyManagers.AliveCountExactIff | src/Game/Enemy/EnemyManager.cpp:133-143 | the count is the number of live enemies exactly if nobody is queued twice or nobody is live; otherwise it is too low |
| EnemyManagers.AliveCountZeroIff | src/Game/Enemy/EnemyManager.cpp:133-143 | the count is 0 exactly if no more enemies are live than are queued more than once |
| EnemyManagers.PurgeKeepsLive | src/Game/Enemy/EnemyManager.cpp:104-124 | after the purge exactly the live enemies are in play, and the count is exact again |
| EnemyManagers.NearestIsUnique | src/Game/Enemy/EnemyManager.cpp:200-220 | the choice of targets is determined: the same list for every order of the map |
| TargetLaws.FoundIff | src/Game/Enemy/EnemyManager.cpp:200-220 | an enemy is found exactly if it is active, in reach, and fewer than the limit are nearer; each comes after exactly the nearer ones |
| Sorting.SortedIsUnique | src/Game/Enemy/EnemyManager.cpp:202-212 | with ids as tie-break there is one sorted order of the same elements |
| MinionStats.MinionStat.Init | src/Game/Minion/MinionStat.cpp:13-37 | half the range, one target for single-target scopes, no buffs, and the cache in step |
| MinionStats.MinionStat.Recalculate | src/Game/Minion/MinionStat.cpp:39-72 | the cache becomes the stat recomputed from the base and the buffs in force, a zero rate included |
| MinionStats.MinionStat.ClearBuffs | src/Game/Minion/MinionStat.cpp:74-80 | the buffs are gone but the cache is not recalculated |
| MinionStats.MinionStat.UpdateBuffList | src/Game/Minion/MinionStat.cpp:91-110 | one list aged, and whether something in it ran out |
| MinionStats.MinionStat.Update | src/Game/Minion/MinionStat.cpp:82-139 | recalculates only if a buff ran out |
| MinionStats.MinionStat.Upgrade | src/Game/Minion/StatUpgrade.cpp:4-21 | each upgrade id changes its base value, within its floor, and recalculates; an unknown id does nothing |
| MinionStats.MinionStat.AddBaseAttackCooldown | include/Game/Minion/MinionStat.h:46 | the base cooldown stays at least 0.1 |
| MinionStats.MinionStat.AddBaseMaxAC | include/Game/Minion/MinionStat.h:47 | the base cap stays at least 1 |
| MinionStats.Minion.ClearBuffs | include/Game/Minion/Minion.h:136-140 | clears and recalculates |
| MinionStats.Minion.AddMaxTargetsBuff | include/Game/Minion/Minion.h:126-129 | the buff lands in the attack-speed list |
| MinionStats.OnBuff | src/Game/Skill/BuffSkill.cpp:6-23 | one buff reaches every target once, with its attack change if it has one |
| MinionStats.Execute | src/Game/Skill/SkillStrategy.cpp:92-109 | every target ends with all buffs and a cache recomputed from them |
| StatLaws.PowerIsBoosted | src/Game/Minion/MinionStat.cpp:41-49 | the current power is the base power with the sum of the bonuses in percent, cut off toward zero, stated by multiplication |
| StatLaws.CooldownIsShortened | src/Game/Minion/MinionStat.cpp:39-72 | cooldown times rate is the base cooldown wherever it is above 0.1, which it is never below; infinite exactly at rate zero with a positive base |
| StatLaws.RefreshedIsWorth | src/Game/Minion/MinionStat.cpp:39-72 | a recalculation leaves base and buffs alone and makes the current stat worth what they say |
| StatLaws.RunIsWorth | src/Game/Minion/MinionStat.cpp:39-139 | so it is after every run of updates, upgrades, ended waves and buff skills |
| StatLaws.UnbuffedIsBase | src/Game/Minion/MinionStat.cpp:39-72 | without buffs the current stat is the base, a cooldown below 0.1 excepted |
| StatLaws.EndOfWaveStrips | include/Game/Minion/Minion.h:136-140 | the end of a wave takes every buff away and leaves the base |
| StatLaws.UpgradeShows | src/Game/Minion/StatUpgrade.cpp:4-21 | an upgrade of a minion without buffs shows at once, in exactly one value, down to the floors |
| StatLaws.SkillAdds | src/Game/Skill/SkillStrategy.cpp:92-109 | a buff skill adds its power and speed buffs and attack changes in their order, and the stat is worth the base with all of them |
| MinionStats.UpdateRecomputes | src/Game/Minion/MinionStat.cpp:82-139 | from a cache in step, updating with recalculation only on expiry gives what always recalculating would |
| MinionStats.CacheNeverStale | src/Game/Minion/MinionStat.cpp:39-139 | after any run of updates, upgrades, ended waves and buff skills the cache equals the recomputed stat, and the custom flag says whether a buff supplies the attack |
| MinionStats.BuffsFrameIndependent | src/Game/Minion/MinionStat.cpp:82-139 | any number of updates has the result of one update over the total time |
| MinionStats.SurvivesIff | src/Game/Minion/MinionStat.cpp:94-101 | a power buff outlives updates of total time T exactly if it is permanent or lasts longer than T, whatever the buffs around it |
| MinionStats.SpeedSurvivesIff | src/Game/Minion/MinionStat.cpp:82-139 | so does an attack-speed buff |
| MinionStats.SpecSurvivesIff | src/Game/Minion/MinionStat.cpp:82-139 | so does a change of the attack, and the last of those left is attacked with, or else the base |
| Boards.Spawned | src/Game/Room.cpp:439-544 | a refused purchase touches neither gold nor board, and it succeeds exactly if every check passes |
| Boards.Player.constructor | src/Game/Player.cpp:7-13 | a player starts with 400 gold |
| Boards.Player.TryUseGold | src/Game/Player.cpp:15-22 | pays exactly if the gold suffices; a price that is not negative never leads into debt |
| Boards.Player.AddGold | include/Game/Player.h:69-72 | the amount is credited |
| Boards.MinionManager.SpawnMinion | src/Game/Minion/MinionManager.cpp:23-57 | a fresh id, used up even if the minion is unknown; the minion stands at half its tile and sells for its cost |
| Boards.MinionManager.RemoveMinion | src/Game/Minion/MinionManager.cpp:59-74 | that minion is gone, and no other |
| Boards.MinionManager.Clear | src/Game/Minion/MinionManager.cpp:76-99 | no minions are left |
| Boards.HomeOfNew | src/Game/Minion/Minion.cpp:34 | truncating twice a half-unit position gives the tile back |
| Boards.HomeOfMoved | include/Game/Minion/Minion.h:213-217 | and so after SetPosition, as z stays 0 |
| Boards.SpawnKeepsIndex | src/Game/Room.cpp:516-518 | placing a minion keeps the tile index the inverse of the positions |
| Boards.ReturnKeepsIndex | src/Game/Room.cpp:546-563 | so does returning one |
| Boards.RelocateKeepsIndex | src/Game/Room.cpp:581-627 | so does relocating one, refused requests included |
| Boards.SpawnKeepsWorth | src/Game/Room.cpp:439-544 | a purchase turns gold into a minion of the same worth, and moves nobody else's |
| Boards.SaleKeepsWorth | src/Game/Handler/SellMinionHandler.cpp:32-48 | a sale turns the minion back into gold |
| Boards.SellUndoesSpawn | src/Game/Handler/SellMinionHandler.cpp:43-48 | selling a minion just bought restores gold, minions and tiles; only the id is used up |
| Boards.RelocateUndoes | src/Game/Room.cpp:581-647 | a minion that is moved can be moved back, and then nothing has changed |
| BoardLaws.BoughtIff | src/Game/Room.cpp:439-544 | when a purchase is accepted, what each refusal answers, and exactly what an accepted one changes |
| BoardLaws.RelocatedIff | src/Game/Room.cpp:581-647 | when a move is accepted, what each refusal answers, and that only the place and the tiles change |
| BoardLaws.SoldIff | src/Game/Handler/SellMinionHandler.cpp:24-50 | when a sale is accepted, and that it pays the sell price and takes the minion and its tile away |
| BoardLaws.UpgradedIff | src/Game/Handler/UpgradeMinionHandler.cpp:49-152 | an upgrade is accepted exactly for an owned slot below its cap with gold enough; it costs its price, raises that level by one and changes nothing else |
| Rooms.Room.constructor | src/Game/Room.cpp:31-61 | a new room waits for players with a whole wall and an empty board |
| Rooms.Room.ResetStageState | src/Game/Room.cpp:1133-1155 | everything but the players is as new, ids apart: no enemies, minions or projectiles, and unsent attack events are dropped |
| Rooms.ProjectileManager.SpawnProjectile | src/Game/Skill/ProjectileManager.cpp:20-55 | the projectile is in flight under the next id |
| Rooms.ProjectileManager.RemoveProjectile | src/Game/Skill/ProjectileManager.cpp:57-67 | it is no longer in flight |
| Rooms.ProjectileManager.Clear | src/Game/Skill/ProjectileManager.cpp:69-88 | nothing is in flight; ids go on |
| Rooms.Room.EndStage | src/Game/Room.cpp:1102-1131 | announced once; cleaned up at once or, within an update, at its end |
| Rooms.Room.CheckEndWave | src/Game/Room.cpp:804-835 | ends the wave, or after the last one the stage, exactly if spawning is finished and the alive count is 0 |
| Rooms.Room.ArrivalEnemyHandle | src/Game/Room.cpp:689-728 | the wall loses the enemy's power, and the enemy is queued for removal; then the stage or the wave may end |
| Rooms.Room.PlayerAddGold | src/Game/Room.cpp:1041-1060 | every player in the room is paid the amount, once |
| Rooms.Room.DeadEnemyHandle | src/Game/Room.cpp:730-744 | pays the reward, queues the removal, checks the wave and broadcasts the gold; players have what the log says they were given |
| Rooms.Room.KillEnemy | src/Game/Enemy/Enemy.cpp:323-330 | the enemy is dead before its callback runs, and that pays the reward, queues the removal, checks the wave and broadcasts the gold |
| Rooms.Room.VisitEnemy | src/Game/Enemy/Enemy.cpp:70-100 | a dead enemy's update does nothing; another's leaves it with the body of its own update and runs the callbacks that this fires, death before arrival |
| Rooms.Room.VisitEnemies | src/Game/Enemy/EnemyManager.cpp:80-102 | the walk visits every enemy exactly once, in some order, each with the state it had before the walk |
| Rooms.Room.DamageEnemy | src/Game/Enemy/Enemy.cpp:300-331 | the dead take no damage; another loses hit points and, at 0, dies with everything that follows |
| Rooms.Room.HandleHit | src/Game/Skill/HitEvent.cpp:10-94 | an attack event is queued, damage is dealt, a slow, stun or damage over time applied, a kill bonus paid to all, a projectile launched or returned |
| Rooms.Room.UpdateWave | src/Game/WaveManager.cpp:112-217 | what the wave manager spawns enters play under the next id |
| Rooms.Room.BroadcastAttack | src/Game/Room.cpp:1062-1100 | the packet holds the whole queue in order, and the queue is empty after; nothing is sent for an empty queue |
| Rooms.Room.BroadcastGoldUpdate | src/Game/Room.cpp:326-360 | every player is sent their gold exactly if gold has changed since the last time |
| Rooms.Room.Sync | src/Game/Room.cpp:90-98 | at most one broadcast a tick, every 0.05 seconds |
| Rooms.Room.UpdateFight | src/Game/Room.cpp:80-88 | spawn, the walk over all enemies, the new one included, removal, and the minions only if the wave still goes on |
| Rooms.Room.UpdateProjectiles | src/Game/Skill/ProjectileManager.cpp:90-128 | unless the stage has ended, and only while projectiles are in flight, their hits are handled |
| Rooms.Room.Tick | src/Game/Room.cpp:69-111 | one update after its commands is one transition, and each player's gold grows by exactly what is logged as given |
| Rooms.Room.UpgradeMinion | src/Game/Handler/UpgradeMinionHandler.cpp:49-152 | the checks in order, the price charged and the level raised, or nothing changed |
| Rooms.Room.ProcessCommands | src/Game/Room.cpp:127-162 | the whole queue is processed in order, each upgrade with the gold its player has left by then; every player pays the prices of the accepted ones and nothing else |
| Rooms.Room.Update | src/Game/Room.cpp:63-112 | commands and tick are one step of the state machine and keep the room at rest; gold after is gold before, less the prices of the player's accepted upgrades, and what the log says was given |
| Rooms.Room.Enter | src/Game/Room.cpp:164-232 | at most two players, only while waiting; the second starts the game and the intermission |
| Rooms.Room.Leave | src/Game/Room.cpp:234-271 | the last one to leave resets the stage and stops the game |
| Rooms.Room.PlayerReadyCheck | src/Game/Room.cpp:411-437 | true exactly if everybody is ready, and then everybody is unready again |
| Rooms.Room.WaveStart | src/Game/Room.cpp:649-655 | in any phase: the wave begins |
| Rooms.Room.SpawnMinion | src/Game/Room.cpp:439-544 | answer, gold and board are those of the purchase; nothing else changes |
| Rooms.Room.ReturnMinion | src/Game/Room.cpp:546-579 | the minion and its tile are freed; an unknown one changes nothing |
| Rooms.Room.RelocateMinion | src/Game/Room.cpp:581-647 | answer and board are those of the move; nothing else changes |
| Handlers.JoinRoom | src/Game/Handler/JoinRoomHandler.cpp:44-64 | one step of the room, which stays at rest; a player it does not let in is in a new room |
| Handlers.Disconnect | src/Network/Session.cpp:268-287 | one step of the room, which stays at rest: the player has left |
| Handlers.LoadScene | src/Game/Handler/LoadSceneHandler.cpp:20-50 | one step of the room, which stays at rest; the answer is whether everybody in it has loaded |
| Handlers.StartWave | src/Game/Handler/WaveHandler.cpp:20-42 | likewise; the wave starts, in any phase, exactly if this player of the room was the last to be ready |
| Handlers.SpawnMinion | src/Game/Handler/SpawnMinionHandler.cpp:22-37 | likewise; answer and gold are those of the purchase, for a player of the room only |
| Handlers.RelocateMinion | src/Game/Handler/RelocateMinionHandler.cpp:22-39 | likewise; the answer is that of the move |
| Handlers.SellMinion | src/Game/Handler/SellMinionHandler.cpp:24-50 | likewise; only the owner sells, for the sell price, in any phase, and the tile is free |
| Handlers.UpgradeMinion | src/Game/Handler/UpgradeMinionHandler.cpp:28-48 | the upgrade waits behind the others for the next update; nothing else changes |
| RoomLaws.UpdateRests | src/Game/Room.cpp:63-112 | every update leaves the room at rest: no ended stage, no cleanup pending, wall above 0; if the stage ended in it all is as new, projectiles included, with the players kept, else players, ready marks and minions are untouched |
| RoomLaws.StepRests | src/Game/Room.cpp:164-271 | so does every request: at most 2 players, ready marks exactly for them, an exact tile index, the wave in range, and nothing on the board while waiting |
| RoomLaws.NewRoomRests | src/Game/Room.cpp:31-61 | a new room is at rest, whatever its stage and data |
| RoomLaws.Run | src/Game/Room.cpp:63-271 | hence a new room is at rest after every run |
| RoomRequests.EnterLetsIn | src/Game/Room.cpp:164-232 | only a waiting room with a free place lets a player in, unready; the second starts the game |
| RoomRequests.LeaveFreesPlace | src/Game/Room.cpp:234-271 | a leaving player takes the place and the mark; after the last the room is as good as new, ids going on |
| RoomRequests.SceneMarks | src/Game/Room.cpp:411-437 | a loaded scene marks its player, and when all are marked the marks are taken back |
| RoomRequests.NotYetReady | src/Game/Handler/WaveHandler.cpp:20-42 | over any requests, while somebody has not asked no wave starts, and the marks are those of the players who have |
| RoomRequests.LastOneStarts | src/Game/Handler/WaveHandler.cpp:20-42 | the last to ask starts the next wave, everybody unready again |
| RoomRequests.BuyPlaces | src/Game/Room.cpp:439-544 | a purchase in the room: by its players, between waves, and exactly what an accepted one changes |
| RoomRequests.RelocateMoves | src/Game/Room.cpp:581-647 | a move in the room likewise: only the place and the tiles change |
| RoomRequests.SellRemoves | src/Game/Handler/SellMinionHandler.cpp:24-50 | a sale in the room: in any phase, by the owner; the minion and its tile are gone |
| RoomFates.WalkFates | src/Game/Enemy/EnemyManager.cpp:80-102 | a walk leaves each enemy as its own update does, queues exactly the dead and the arrived, and costs the wall the power of the arrived |
| RoomFates.UpdateFates | src/Game/Room.cpp:63-112 | an update in which nobody hits, in terms of the room before and after: who joins, who is moved, who is gone, and what the wall lost |
| RoomHits.ProjectileHitShows | src/Game/Room.cpp:100-103 | with a projectile in flight and the stage not ended, one more hit of theirs changes the room after the update by exactly that hit: a live enemy has the damage less, or is dead, rewarded and queued, and the wave or stage over if it was the last |
| RoomHits.NothingInFlight | src/Game/Skill/ProjectileManager.cpp:90-128 | with nothing in flight the projectiles' hits change nothing |
| RoomHits.NothingAfterTheEnd | src/Game/Room.cpp:100-103 | nor after the end of the stage, unless a wave has ended after it |
| RoomHits.HitEarns | src/Game/Room.cpp:1041-1060 | such a hit earns the reward of the enemy it kills, or its bonus, and otherwise nothing |
| RoomHits.MinionHitTells | src/Game/Room.cpp:80-88 | in a wave still on after the walk, one more hit of the minions is that change of the room, and earns that |
| RoomHits.NoWaveNoHits | src/Game/Room.cpp:80-88 | when it is no wave, or no more after the walk, the minions' hits change nothing |
| RoomSync.UpdateSyncs | src/Game/Room.cpp:90-98 | nothing is sent before 0.05 s have gone by; then 0.05 s are used up and everything that waited is sent in one batch |
| RoomEnemies.EveryEnemyDepartsOnce | src/Game/Room.cpp:689-744 | over every run of a new room each enemy is rewarded for at most once and arrives at most once, and between updates the alive count is the number of live enemies |
| RoomEnemies.DepartsTwiceIff | src/Game/Enemy/Enemy.cpp:84-99 | over every run some enemy departs both ways, by a reward and an arrival, exactly if one of its updates fires both callbacks |
| RoomEnemies.RemovalIsSound | src/Game/Enemy/EnemyManager.cpp:104-124 | after any walk, double departures included, the removal leaves exactly the dead to be removed and an exact count |
| RoomWaves.CheckConcludes | src/Game/Room.cpp:804-835 | in every phase and for every roster the wave is taken to be over exactly if spawning is finished and no more enemies are live than are queued more than once; then the wave, or after the last the stage, is announced |
| RoomWaves.DeathEndsWave | src/Game/Room.cpp:730-744 | at a death, in any phase and with nobody queued twice, the wave is over exactly if spawning is finished and this leaves nobody live, with the right announcement; a stage just lost goes on to the intermission |
| RoomWaves.ArrivalEndsWave | src/Game/Room.cpp:689-728 | at an arrival that the wall survives likewise; one that it does not survive loses the stage, announced once |
| RoomWalks.WalkIsDepartures | src/Game/Enemy/EnemyManager.cpp:97-102 | a walk announces, and leaves the room, what the departures in it one by one would |
| RoomWalks.WalkEndsEarlyIff | src/Game/Room.cpp:804-835 | a walk announces the end of the wave while somebody is left exactly if spawning is finished and at one of its departures, not breaking the wall, as many have departed as were live but not all of them |
| RoomWalks.SingleNeverEarly | src/Game/Room.cpp:804-835 | without an enemy departing twice no walk does |
| RoomWalks.WalkEndsAfterLossIff | src/Game/Room.cpp:689-728 | a walk announces the stage lost and then the wave ended exactly if a further wave is to come, spawning is finished and the wall breaks before a departure, not breaking it, with which as many have departed as were live |
| RoomTicks.EndsEarlyIff | src/Game/Room.cpp:63-112 | the same of a whole update: what minions and projectiles do after the walk never ends a wave early |
| RoomTicks.EndsAfterLossIff | src/Game/Room.cpp:63-112 | the same of a whole update: after the walk no stage is lost any more |
| RoomScenes.TargetsChosen | src/Game/Enemy/EnemyManager.cpp:145-231 | where the scene has the enemies stand, the targets struck are those the enemy manager finds for the minion's place, range and number of targets |
| RoomScenes.MinionPlays | src/Game/Minion/MinionManager.cpp:101-165 | in every update of a scene the minion's hits are what it does: nothing before its cooldown is over, then its skill on the targets found, and nothing once it is no wave any more |
| RoomRuns.EndsWithOneAlive | src/Game/Skill/HitEvent.cpp:36-47 | from a new room, two players, a bought minion and its damage over time on the enemy nearest to it end a wave while one of its two enemies is alive |
| RoomRuns.EndsAfterTheLoss | src/Game/Room.cpp:717-727 | from a new room, with the minion by the other enemy, a stage is announced lost and then its wave ended |
| RoomRuns.EndsThrice | src/Game/Room.cpp:804-835 | from a new room, with both enemies in range, one update announces the end of a wave three times |
| RoomRuns.LostTwice | src/Game/Room.cpp:717-727 | and with stronger enemies the stage is announced lost twice in one update |
| RoomEnds.WalkAnnounces | src/Game/Room.cpp:804-835 | a walk announces the end of the wave once for each departure at which the check succeeds (after the last wave once), and the end of the stage once for each loss that does not find it ended |
| RoomEnds.WaveEndsTwiceIff | src/Game/Room.cpp:804-835 | the end of the wave more than once exactly if a further wave is to come and the check succeeds at two departures |
| RoomEnds.StageEndsTwiceIff | src/Game/Room.cpp:1102-1131 | the end of the stage more than once exactly if a further wave is to come and the wall breaks, then the check succeeds, then the wall is broken again |
| RoomEnds.FourDepartures | src/Game/Room.cpp:804-835 | with three live enemies, one dying and arriving while the wall holds and then the others dying announce two ends of the wave |
| RoomEnds.UpdateAnnounces | src/Game/Room.cpp:63-112 | an update announces ends exactly as often as its walk, and once more if after it the last live enemy is removed |
| RoomEnds.UpdateEndsTwiceIff | src/Game/Room.cpp:63-112 | the exact conditions for more than one end of a wave, and of a stage, in one update |
| RoomEnds.EndsAtMostOnceIff | src/Game/Room.cpp:63-271 | over any stretch of a run of a new room the ends announced are exactly those of its updates' walks and last removals; at most one exactly if these make up at most one |
| RoomRuns.LonePlayerStarts | src/Game/Handler/WaveHandler.cpp:26-29 | from a new room, one player who enters and asks for a wave starts it, without a game and without the second player |
| RoomWaves.EndsAtMostOnce | src/Game/Room.cpp:804-835 | after any run, while no enemy update fires both callbacks, until the next wave is requested at most one wave end and one stage end are announced, and if the wave has ended, spawning is finished and no enemy is live |
| RoomAttacks.AttacksConserved | src/Game/Room.cpp:1062-1100 | over every run of a new room the events queued are those that left the queue, in order, and then those still in it |
| RoomAttacks.BatchesConserve | src/Game/Room.cpp:1078-1093 | in every run of a new room without a reset, the batches one after the other and then the queue are exactly the events queued |
| RoomLedger.StepBalances | src/Game/Room.cpp:1041-1060 | one operation of the room changes a player's net worth by exactly the room's gifts, less the prices of upgrades and the minions lost when the board is cleared |
| RoomLedger.RoomBalances | src/Game/Room.cpp:63-271 | and so does every run of a new room, each request with the gold its player really has: trading minions makes and loses nothing |
| RoomLedger.NeverInDebt | src/Game/Player.cpp:15-22 | over every such run, with costs, prices, rewards and bonuses that are not negative, nobody's gold is ever negative, and minions sell for their cost |
| RoomUpgrades.LevelsArePaidFor | src/Game/Handler/UpgradeMinionHandler.cpp:83-127 | the levels a slot gains in an update are the accepted requests for it, each paid for at its price |
| RoomUpgrades.LevelsCapped | src/Game/Handler/UpgradeMinionHandler.cpp:83-127 | over every run of a new room every slot keeps its data, and its level never falls below the data's nor passes the cap |

## Left out

- Sockets, the accept loop, logging, configuration and data loading, MySQL, Redis, accounts, hashes and tokens: input and output, or library calls.
- Rounding of floats, including coordinates beyond the range in which a float holds every integer.
- Overflow of gold and of the wall's hp, and instance ids wrapping after 2^32 spawns.
- Byte order: integers are little-endian, as on the machines the server is built for.
- `UseGoldHandler`: no server registers it (src/Game/GameServer.cpp:60-252). It turns the packet's unsigned price into an int, so that from 2^31 on it would raise the gold.
- Recycling of projectiles: the attack callback holds its own projectile, so nothing is promised about when one is reused.
- Which projectile hits what: in the room a projectile is its id, and its hits are an input; `Projectiles` says what one shot strikes. Removing an unknown id leaves a null entry in the map until the next update, which drops it.
- Exactly-once kill events: the projectile path runs them for targets that are already dead; a kill bonus is an input of the room, as are the targets and the damage of an attack.
- Skill charge (`currentAC`, the ready flags and the attack timer): it is not bounded by its cap across waves and upgrades.
- That a won stage had every wave played: `WaveStart` has no guard on the phase, so a wave can be skipped by requesting the next.
- `FindMinionInRange`: it has no tie-break, so its order is not determined.
- A minion whose skill data is missing: `Minion::Init` dereferences it unconditionally.
- `m_lifeTime` and `m_aliveEnemyCount`: written and never read.
- Which path an enemy gets, and the data of the enemies and skills, are inputs.
- Enemies inside their manager are values: the room changes one by `Enemies.UpdateBody`, which `Enemies.Enemy.Update` is proved to compute in place; a callback sees the enemy as it is after the whole update, of which it uses only the id, the power and the reward.
- The session's disconnect path beyond the flag, and of room creation and removal in `RoomManager` all but the set of rooms.
- An exception that escapes `Room::Update` ends the process, so no tick follows one.
- The GameInstance: whether there is one is modelled; its own update does nothing.
- RoomWaves.EndsAtMostOnce: assumes that no enemy's update fires both callbacks after the run it starts from; with one the claim is false (RoomRuns.EndsThrice, RoomRuns.LostTwice). RoomEnds.EndsAtMostOnceIff counts the ends of every run without that assumption.
