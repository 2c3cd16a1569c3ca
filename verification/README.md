# A WebRTC conference server's control plane, modelled and proved in Dafny

The server keeps rooms of users, opens one media router per room on a remote worker, and
tells every user which streams to consume. This project models the parts of it in which
state is shared and changes in place, and proves what they keep over whole runs.

| file | models |
|---|---|
| `Basics.dfy`, `Slices.dfy`, `Decimal.dfy` | notions several modules share; Go's `append(s[:i], s[i+1:]...)`; decimal numbers as text |
| `Router.dfy` | a router's producer and consumer lists, as a class over values of type `RouterState` |
| `History.dfy` | what happened in a room, and who is entitled to which stream because of it |
| `Messages.dfy` | a user's channel and the numbering of requests on it |
| `RoomModel.dfy`, `Room.dfy` | the operations of a room: on values, and as classes `User` and `Room` proved equal to them |
| `Subscriptions.dfy` | what every operation of a room keeps: who consumes whom |
| `Offers.dfy` | what producing tells: one offer for each consumer gained, and what it says |
| `Malformed.dfy` | exactly which media parameters make producing panic |
| `Conference.dfy` | the signalling server as a machine: connect, handle a request, disconnect |
| `Invariants.dfy`, `Reachable.dfy`, `Handlers.dfy`, `Runs.dfy` | what every step keeps, and what follows for every run |
| `Deliveries.dfy`, `RunLaws.dfy` | for each event exactly the messages every user is sent; membership, offers and data consumers over runs |
| `Server.dfy` | classes `RoomManager` and `WsServer`; each method is proved to take exactly the machine's step |
| `Media.dfy` | RTP parameters shared through slices: feedback, payload types, extension ids, SSRCs |
| `Rpc.dfy` | requests and replies over a worker's stream, in the steps between which goroutines switch |
| `Workers.dfy`, `Registry.dfy` | the worker registry and scheduler, the streams they must agree with, router accounting |
| `Scripts.dfy`, `ScriptText.dfy`, `ScriptMeaning.dfy` | the Redis script joiner as a compiler, a reader of the text it writes, and the meaning of what is read |
| `RetryQueue.dfy` | the queue of HTTP callbacks to be retried |

How the parts fit: `Server.WsServer` keeps a ghost log of its events, and its `Valid()` says
that its state is the one the machine reaches by that log (`Runs.Reached`). Each of its
methods adds one event and takes exactly the step that `Conference.Step` gives for it. So
every theorem of `Runs` about reached worlds is one about the state of a valid server.

## Assumptions

- `RandString` never repeats: an id is the next value of a counter (`nextId`). So is a router's id. User ids, which are nanosecond times, are new at each connection.
- Handlers, connects and disconnects are atomic steps, as are the events of the worker registry. The Go code has no lock on `rooms`, on a room's `users` or on a router's maps, and it closes a user's channel before removing the user from the room, so a step that is not atomic is outside the model. `Registry.TornRemoval` and `Registry.FourWrites` show what goes wrong in the registry without this assumption. The RPC part has finer steps.
- The order in which Go ranges over a map is a parameter (`order`, `others`, `owners`, `told`, `listed`, `shifts`), constrained only to enumerate the map's keys.
- A worker's answer, the clock, random numbers and the outcome of decoding a request's JSON are parameters too. A room's operations go on when the worker refuses a producer or a consumer, so in the room those answers do not appear. A reply of another type than the one asked for is an event of its own, `WrongReply`, possible wherever a worker is asked for something.
- A user's channel is the sequence of everything sent on it. Writing to a closed channel, closing one twice, using a nil room, media parameters that cannot be worked with and a wrong reply make the machine's state `panicked`, after which the run ends. Go's own faults (a concurrent write to a map, memory running out) are outside the model.

## Where the code does not do what one might expect

- The list that `removeConsumerByProducerId` shortens is a local copy of the header, so a closed producer's consumer can stay listed: `Routing.ClosingConsumers` says exactly when, `Routing.ShiftingRepeatsConsumer` when another consumer is then listed twice. Storing the shortened list instead would hand out the same mid twice (`Routing.ShorteningRepeatsMid`).
- `RemoveFeedbackRemb` leaves `goog-remb` in the caller's slice exactly when the slice ends in it (`Media.RembGoneUnlessLast`).
- When a user leaves, its producers and consumers stay with the router; the promise about subscriptions is therefore one between users who are present.
- The server panics exactly in these cases (`Runs.PanicsExactly`): a join finds no room and no worker to open one; a produce has a null encoding, and its router's worker a name; a produce has too few codecs, or for video no parameters with the second, and somebody else is in the room; a produce of one user meets such a producer stored earlier by another (`Malformed.ProducePanicsExactly`), however well-formed it is itself; a worker answers with a reply of another type.
- A produce is answered with ok even if nothing was produced; the answer carries a producer's id exactly if a room is found or opened and the request decodes (`Handlers.ProduceAnswer`).
- A router whose create request times out or is refused is forgotten: if a worker opened it after all, nobody ever asks for it to be closed (`Runs.RunRouters`).
- A call that has returned with its reply is still listed as pending while the reader that delivered it holds the stream's lock, and at no other time (`Rpc.ReturnedCallsAreUnlisted`); the moment is reached (`Rpc.ReturnedCallStillListed`).
- The end of a stream spares a worker exactly if the stream holds no id or another one, so the end of an old stream takes a newer registration of the same worker along (`Registry.EndTakesNewerRegistration`).
- For one producer, the first consumer's request to the worker carries the client's extension ids and every later one the rewritten ids (`Media.OfferToMany`).
- The scheduler multiplies the router count by ten in 32 bits; the score is the intended one up to 429496729 routers and no further (`Registry.ScoreIsIdeal`). Each router added that is already stored puts the count off by one (`Registry.DriftKept`).
- The check for missing script keys looks up the keys just put in, so compiling never fails (`Scripts.CompileRedisScripts`); a declared key that was not supplied is simply not bound.
- In the joined script each name is bound by reading the table `KEYS` or `ARGV` in the scope made so far, so a key or argument of that very name hides the table from the bindings after it (`ScriptMeaning.KeyNamedKeys`), and a name declared by one script hides a global of that name from all the others. `ScriptMeaning.NamesResolve` and `ScriptMeaning.CapturedExactly` say exactly when neither happens.
- The list a joined script returns has one entry for each script exactly if the last script returns one value (`ScriptMeaning.OneResultEach`).
- A request with an empty url that fails its first attempt is queued and then dropped (`RetryQueue.FullFailingCycle`).

## Model

| member | source | states |
|---|---|---|
| `Slices.AppendOver` | src/server/worker.go:140 | the copy inside the backing array: a caller with the old header sees the last element twice, one with the new header sees the element gone |
| `Slices.ShiftOutKeeps` | src/server/worker.go:140 | which elements survive the shift for a caller that keeps its header, in both directions |
| `Routing.Router.AddProducer` | src/server/worker.go:61-69 | the producer is appended to the user's own list and nothing else changes |
| `Routing.Router.GetProducer` | src/server/worker.go:71-81 | the first of that user's producers with the id, and none exactly if there is none |
| `Routing.Router.RemoveProducer` | src/server/worker.go:83-93 | the first producer of that id leaves the user's list, and only it |
| `Routing.Router.AddConsumer` | src/server/worker.go:95-113 | refuses exactly when the user already consumes the producer; otherwise appends |
| `Routing.Router.ShiftConsumer` | src/server/worker.go:138-145 | what one stored list is after the copy inside its backing array, its header unchanged, and the id of the match |
| `Routing.Router.RemoveConsumerByProducerId` | src/server/worker.go:132-149 | whatever the order of the range: each other user's stored list is shifted once, and the report is exactly the first matches |
| `Routing.Router.SaveConsumeTransportId` | src/server/worker.go:175-181 | the first consuming transport of a user stays |
| `Routing.Router.SaveProducerTransportId` | src/server/worker.go:183-189 | the first producing transport of a user stays |
| `Routing.Router.GetConsumerStreamMid` | src/server/worker.go:229-233 | the mid is the number of consumers stored for the user |
| `Routing.ShiftAlongAll` | src/server/worker.go:134-146 | the loop's outcome does not depend on the order of the range |
| `Routing.ClosingReports` | src/server/worker.go:132-149 | reported are exactly the other users holding a consumer of the producer, each with its first one |
| `Routing.ClosingConsumers` | src/server/worker.go:132-149 | no stored list changes length, every consumer of another producer survives, nothing is added, and when the closed one's consumer remains |
| `Routing.ShiftingRepeatsConsumer` | src/server/worker.go:138-145 | a list with one consumer per producer stays one exactly when the first match is absent or last |
| `Routing.ShorteningRepeatsMid` | src/server/worker.go:138-145 | a write-back removal would keep one consumer per producer but repeat a mid; the stored list does not |
| `Decimal.AtoiItoa` | src/server/worker.go:229-233 | decimal text reads back as the number, so equal mids are equal numbers |
| `History.EntitledByAppend` | src/server/room.go:233-278 | the one way in which an event entitles a user to a producer |
| `History.EntitledWhilePresent` | src/server/room.go:233-278 | between users present, entitlement is: there when it was produced, or produced that kind since |
| `RoomModel.OfferToOthersEffect` | src/server/room.go:261-278 | everybody else in the room gets exactly one consumer of the new producer, at the end of its list, under the next mid |
| `RoomModel.PullFromOthersEffect` | src/server/room.go:233-259 | the producing user ends up holding exactly what it held and what the others produce of that kind; nobody else's list changes |
| `Offers.ProduceAnnounces` | src/server/room.go:233-278 | of what producing sends, each user gets one request for each consumer its list gained, in the list's order, with that consumer's ids, kind, transport and mid and the peer id of whoever produces; each consumer is new, has a fresh id and is on its user's own transport; the producer is stored with the request's transport, kind and shape |
| `Subscriptions.EnterKeeps` | src/server/room.go:95-101 | entering keeps the room's invariant: lists match the history |
| `Subscriptions.LeaveKeeps` | src/server/room.go:107-118 | leaving keeps it, although the leaver's producers and consumers stay listed |
| `Subscriptions.ConnectKeeps` | src/server/room.go:332-342 | a connected transport keeps it |
| `Subscriptions.ProduceKeeps` | src/server/room.go:370-393 | producing, offering and pulling keep it: nobody is missed, nobody gets what it is not entitled to |
| `Subscriptions.CloseKeeps` | src/server/room.go:395-426 | closing keeps it, in spite of the in-place shift |
| `Subscriptions.HoldsIffEntitled` | src/server/room.go:233-278 | a user holds a consumer of a live producer exactly when entitled to it; never of its own; and of the producer's kind |
| `Subscriptions.SubscriptionPromise` | src/server/room.go:233-278 | the same between users present, in terms of presence and of what was produced since |
| `Rooms.User.SendRequest` | src/server/user.go:305-327 | the request takes the user's next number |
| `Rooms.Post` | src/server/user.go:285-337 | one message reaches one user; every other user is as before |
| `Rooms.Room.AddUser` | src/server/room.go:95-101 | a user already there is not replaced |
| `Rooms.Room.DeleteUser` | src/server/room.go:107-118 | the user is gone and each of the others is told once |
| `Rooms.Room.ReqOtherNewConsumer` | src/server/room.go:261-278 | the loop over the users sends and stores exactly the offers of the specification, in order, drawing one id each, and panics exactly if one of them would |
| `Rooms.Room.ReqPullOtherNewProducer` | src/server/room.go:233-259 | the loops over users and their producers do what the specification says, drawing an id even for a consumer that exists, and panic exactly at a new consumer of a malformed producer |
| `Rooms.Room.Produce` | src/server/room.go:370-393 | store, complete the encodings, offer, then pull: the router, the ids drawn, every user's messages, and whether Go panics on the parameters |
| `Rooms.Room.CloseProducer` | src/server/room.go:395-426 | refuses what the user does not own; otherwise both removals and a notice to each reported user still in the room |
| `Rooms.Room.CreateWebrtcTransport` | src/server/room.go:332-342 | the transport is stored by direction, and an unknown direction is refused |
| `Rooms.Room.CreateNewDataConsumer` | src/server/room.go:346-364 | no request for the user's own consuming transport; otherwise two fresh ids |
| `Rooms.Room.NotifyOtherUsers` | src/server/room.go:139-155 | each other user is told of the newcomer once, with the newcomer's current name |
| `Rooms.Room.GetOtherUsers` | src/server/room.go:120-137 | the peers listed are all users of the room but one, in the order of the range |
| `Invariants.PostKeeps` | src/server/user.go:285-337 | posting on open channels keeps the machine's invariant |
| `Invariants.UpdateKeeps` | src/server/room.go:370-426 | so does any room operation that keeps the room's own invariant and offers each new consumer under the next mid |
| `Handlers.HandleKeeps` | src/server/user.go:85-283 | a handler that has its room panics exactly on a produce with parameters it cannot work with; otherwise it keeps the invariant and answers its request once |
| `Handlers.ProduceAnswer` | src/server/user.go:231-262 | a produce is answered with ok in any case, and with a producer's id exactly if there is a room and the request decodes |
| `Deliveries.PostSent` | src/server/user.go:285-337 | a channel gains exactly the messages addressed to its user, requests numbered on from its counter |
| `Deliveries.RegisterTells` | src/server/wssServer.go:37-46 | connecting sends nothing; the new user's channel is open and empty |
| `Deliveries.LeaveTells` | src/server/room.go:107-118 | each remaining member is told once that this peer is gone, and nobody else is told anything |
| `Deliveries.JoinTells` | src/server/user.go:170-200 | each other member is told once, under the new name; the joining user is answered with the list of the others, each once; nothing else is sent |
| `Deliveries.CreateTransportTells` | src/server/user.go:97-122 | when the answer is ok and what it says; which transport becomes whose in which direction, the first one staying |
| `Deliveries.ConnectTells` | src/server/user.go:124-168 | when u is asked for a data consumer, with two fresh ids, and what it is answered |
| `Deliveries.ProduceDataTells` | src/server/user.go:202-229 | a fresh id exactly if there is a room and the request decodes |
| `Deliveries.OtherRequestsTell` | src/server/user.go:77-95 | the capabilities go to whoever asks; an unknown method changes nothing |
| `Deliveries.ProduceTells` | src/server/user.go:231-262 | every user is sent one offer for each consumer its list gained, and the producing user then its answer; nothing else is sent |
| `Deliveries.CloseTells` | src/server/room.go:395-426 | if the producer was the closer's own, every other member holding a consumer of it is told once, of its first one; nobody else is told anything |
| `Handlers.RegisterKeeps` | src/server/wssServer.go:37-46 | connecting keeps the invariant |
| `Handlers.UnregisterKeeps` | src/server/wssServer.go:48-63 | disconnecting keeps the invariant: the channel is closed once, and nobody is written to whose channel is closed |
| `Handlers.UnregisterRooms` | src/server/wssServer.go:48-63 | the room goes exactly with its last member, and its router is asked to close then |
| `Runs.StepKeeps` | src/server/wssServer.go:34-66 | every event panics exactly under a condition that can be told before it, and otherwise keeps the invariant |
| `Malformed.ProducePanicsExactly` | src/server/room.go:206-221 | producing panics exactly on a null encoding sent to a named worker, on a request nobody else could be offered though somebody is there, or on another's stored producer of that kind that cannot be offered and is not yet consumed |
| `Runs.PanicsExactly` | src/server/user.go:34-81 | a run panics exactly if some event in it is a join without a room, a produce as above, or a wrong reply; so no send on a closed channel and no second close, ever |
| `Runs.RunSubscriptions` | src/server/room.go:233-278 | in every reached state, users present consume each other's live producers exactly as promised |
| `Runs.RunKinds` | src/server/room.go:233-278 | in every reached state nobody consumes its own live producer, and consumers have their producers' kinds |
| `Runs.RunMembers` | src/server/wssServer.go:37-62 | in every reached state a member is a connected user of that room with an open channel, and every room has a connected user naming it |
| `RunLaws.RegisterMembers` | src/server/wssServer.go:37-42 | connecting puts the user in its room exactly if that is there or can be opened, beside those already there, and touches no other room |
| `RunLaws.RunMembership` | src/server/wssServer.go:37-46 | throughout every run a connected user is a member of its room exactly if its own connecting found or opened that room |
| `RunLaws.HandleMembers` | src/server/user.go:85-283 | no request moves anybody in or out of a room |
| `RunLaws.RunOffers` | src/server/room.go:233-278 | in every step of every run a user's offers are, one by one, the consumers its list in its room gains, described as they are stored, in the name of whoever produces |
| `RunLaws.AskedAtMostOnce` | src/server/user.go:141-158 | in no run is a user asked for a data consumer twice |
| `Runs.RunRouters` | src/server/room.go:81-93 | in every reached state a router asked for is in exactly one room, or in none and asked to close exactly once, if its opening was acknowledged; and is in no room and never asked to close if not |
| `Runs.ClosingSteps` | src/server/wssServer.go:57-62 | a room goes and its router is asked to close in the same step, which is a disconnect, and in no other |
| `Runs.RunMessages` | src/server/user.go:305-327 | requests to a user carry consecutive numbers in channel order, whoever's handler sent them; answers match the handled requests, one each, in order |
| `Runs.RunMids` | src/server/room.go:204 | all mids a member was ever offered are distinct, and are 1, 2, 3, ... as numbers |
| `Runs.RoomMids` | src/server/worker.go:95-113 | while a room lasts nobody who names it, member or not, loses a consumer, and the mids offered to it go on counting from the number it had |
| `Server.RoomManager.GetOrCreateRoom` | src/server/roomManager.go:15-27 | the room of that id, new if there was none and a worker acknowledges a router; a request without an acknowledgement is on record and leaves no room |
| `Server.WsServer.Register` | src/server/wssServer.go:37-46 | takes the machine's step; the server's state is still the one its log of events leads to |
| `Server.WsServer.Unregister` | src/server/wssServer.go:48-63 | takes the machine's step; a second disconnect of the same user does nothing |
| `Server.WsServer.ReadMessage` | src/server/user.go:34-81 | for each method of the protocol, panics exactly if the machine's step does, and otherwise takes that step |
| `Server.WsServer.HandleCreateWebrtcTransport` | src/server/user.go:97-122 | the handler is the machine's |
| `Server.WsServer.HandleConnectWebrtcTransport` | src/server/user.go:124-168 | the handler is the machine's; the data consumer is asked for at most once per user |
| `Server.WsServer.HandleJoin` | src/server/user.go:170-200 | the handler is the machine's: name first, then the others are told, then the list; without a room it panics |
| `Server.WsServer.HandleProduceData` | src/server/user.go:202-229 | the handler is the machine's |
| `Server.WsServer.HandleProduce` | src/server/user.go:231-262 | the handler is the machine's; the offers go out before the answer; it panics exactly on parameters it cannot work with |
| `Server.WsServer.HandleCloseProducer` | src/server/user.go:264-283 | the handler is the machine's; there is no answer |
| `Media.RemoveFeedbackRemb` | src/server/room.go:65-72 | terminates, and leaves the kept entries in order followed by one copy of the last entry for each entry dropped |
| `Media.RembGoneUnlessLast` | src/server/room.go:65-72 | the caller's slice is free of goog-remb exactly when it did not end in one |
| `Media.RemoveRembFromCodecs` | src/server/room.go:379-382 | the same for the feedback of every codec of a producer |
| `Media.ChangeExtensionId` | src/server/room.go:24-28 | every extension gets the id of its uri, in place |
| `Media.ProducerParameters.CreateNewConsumerData` | src/server/room.go:183-231 | the data has its own mid and cname and shares the producer's slices; the worker gets the new payload types but the old extension ids |
| `Media.OffersAreIdempotent` | src/server/room.go:204-228 | making an offer again changes nothing more; only payload types, apt and extension ids are ever touched |
| `Media.PayloadTypes` | src/server/room.go:206-221 | the repair codec names the first codec's payload type and has another of its own; further codecs keep theirs |
| `Media.ExtensionIds` | src/server/room.go:30-63 | an extension's id is that of the first keyword in its uri, and no two keywords share one |
| `Media.EncodingsForProducer` | src/server/grpcServer.go:429-467 | missing repair streams are completed in place, and what is sent matches what is stored |
| `Media.EncodingsForConsumer` | src/server/grpcServer.go:584-614 | what is sent is what is stored; with the repair stream there, nothing nil is read |
| `Media.EncodingsAgree` | src/server/grpcServer.go:429-467 | once a producer is created, its video encodings all have a repair stream, the client's own or one with another SSRC, and completing them again changes nothing |
| `Media.OfferToMany` | src/server/room.go:370-390 | all requests for one producer's consumers carry the encodings of its create request and all offers the same codecs and extensions; the requests agree on extension ids exactly if rewriting them changes nothing |
| `Media.EnoughIsOfferable` | src/server/room.go:206-221 | the shape a room keeps of a producer's codecs decides whether an offer of it can be made, and making one does not change that |
| `Rpc.StepKeeps` | src/server/grpcServer.go:139-231 | every step of callers, reader, timers and re-registration keeps the protocol's invariant |
| `Rpc.DeliveryNeverBlocks` | src/server/grpcServer.go:139-147 | the reader never waits for room in a channel while it holds the lock |
| `Rpc.ReaderNeverBlocks` | src/server/grpcServer.go:139-147 | the same, in every run |
| `Rpc.OnlyExpectedRepliesCount` | src/server/grpcServer.go:139-188 | a reply has an effect exactly if a call on this stream expects it, and then on that call alone |
| `Rpc.ReturnedCallsAreUnlisted` | src/server/grpcServer.go:200-231 | on every stream, replaced ones included: when exactly a returned call's id is still pending |
| `Rpc.ReturnedCallStillListed` | src/server/grpcServer.go:139-147 | a run in which a call has returned and is still pending |
| `Rpc.NothingLeaks` | src/server/grpcServer.go:200-231 | when all calls have returned and no delivery is under way, no stream has anything pending |
| `Rpc.EachCallItsOwnReply` | src/server/grpcServer.go:200-231 | in every run a call gets at most one reply, with its own id, and no two calls share an id |
| `Rpc.SentOnLastStream` | src/server/grpcServer.go:82-88 | in every run a call goes out on the stream of its worker's last registration at the time, and is turned away exactly if there is none, told from the events |
| `Rpc.OutcomesAreTold` | src/server/grpcServer.go:200-231 | in every run a reply, a send error or a timeout is returned only if that reply was delivered on the call's stream, its send failed, or its timer fired |
| `Rpc.IdsRepeat` | src/server/grpcServer.go:206-207 | two increments of the counter give the same id exactly when they are a multiple of 2^64 apart |
| `Workers.WorkerManager.RegisterWorker` | src/server/workerManager.go:29-54 | a known worker is put Online again and keeps its counts; a new one starts empty |
| `Workers.WorkerManager.Heartbeat` | src/server/workerManager.go:75-89 | refreshes exactly a worker on record |
| `Workers.WorkerManager.UpdateWorkerStats` | src/server/workerManager.go:56-73 | overwrites the statistics of exactly a worker on record |
| `Workers.WorkerManager.RemoveWorker` | src/server/workerManager.go:91-102 | the worker is marked Offline and forgotten |
| `Workers.WorkerManager.GetOnlineWorkers` | src/server/workerManager.go:122-136 | exactly the workers that are Online and fresh |
| `Workers.WorkerManager.ChooseBestWorker` | src/server/workerManager.go:138-159 | none exactly when no worker is a candidate; otherwise one that no candidate beats, for any order and negative scores too |
| `Workers.WorkerManager.CleanupTick` | src/server/workerManager.go:164-175 | exactly the workers timed out are removed, whatever the order |
| `Workers.WorkerManager.AddRouter` | src/server/workerManager.go:185-196 | the router is stored and the count goes up by one modulo 2^32 |
| `Workers.WorkerManager.RemoveRouter` | src/server/workerManager.go:198-212 | only a stored router is removed and counted down |
| `Registry.WebRtcServer.OnRegister` | src/server/grpcServer.go:64-88 | takes the registry's step on both tables and keeps them in agreement |
| `Registry.WebRtcServer.OnKeepalive` | src/server/grpcServer.go:106-123 | takes the registry's step, for any id the keepalive may name |
| `Registry.WebRtcServer.OnEnd` | src/server/grpcServer.go:45-61 | both tables forget the id last named on the stream |
| `Registry.WebRtcServer.ChooseStream` | src/server/grpcServer.go:192-206 | a worker chosen between events has a stream |
| `Registry.StepKeeps` | src/server/grpcServer.go:40-137 | every event keeps: a worker on record is Online, under its own id, and has a stream |
| `Registry.ChosenIsReachable` | src/server/grpcServer.go:192-206 | after every run of events, whichever worker may be chosen has a stream |
| `Registry.TornRemoval` | src/server/grpcServer.go:47-59 | with an event between the two removals the tables still agree exactly if it does not register that id; if it does, the scheduler has a worker it cannot reach |
| `Registry.FourWrites` | src/server/grpcServer.go:47-88 | of the six interleavings of the two removals with the two writes of a registration exactly one ends in disagreement |
| `Registry.EndTakesNewerRegistration` | src/server/grpcServer.go:47-59 | a registration outlives a stream's end, in both tables and unchanged, exactly if the stream holds no id or another one |
| `Registry.RegistrationLasts` | src/server/grpcServer.go:40-123 | over any run of sessions a worker stays on record exactly until it times out or some session holding its id, whichever registered it, ends or registers another |
| `Registry.OlderStreamEnds` | src/server/grpcServer.go:47-59 | a run in which the end of an old stream removes the registration made on a newer one |
| `Registry.ScoreIsIdeal` | src/server/workerManager.go:150 | the 32-bit score is the intended one exactly up to 429496729 routers |
| `Registry.TickChangesNoChoice` | src/server/workerManager.go:161-177 | a cleanup tick just before choosing changes neither the candidates nor which of them is best |
| `Registry.RegisteredIsCandidate` | src/server/workerManager.go:29-54 | a worker just registered can be chosen until its heartbeat is too old, with its score as it was or 1000; nobody else's record changes |
| `Registry.ReportedScore` | src/server/workerManager.go:56-73 | a worker's score is that of the numbers it reported last |
| `Registry.HeartbeatRefreshes` | src/server/workerManager.go:75-89 | a heartbeat refreshes the worker and leaves its score |
| `Registry.RoutersStored` | src/server/workerManager.go:185-212 | exactly the router named is stored or taken away, at the worker named |
| `Registry.DriftKept` | src/server/workerManager.go:185-212 | over any events but statistics and a new start, the count minus the routers stored goes up, modulo 2^32, by exactly the number of routers stored twice |
| `Registry.NewWorkerHasNoDrift` | src/server/workerManager.go:41-51 | a worker starts with no difference |
| `Scripts.GetScriptsUniqueArgNames` | src/server/redis.go:98-112 | each argument name once, where it first occurs |
| `ScriptMeaning.FirstOccurrencesOrdered` | src/server/redis.go:98-112 | no name twice, and the names in the order of their first occurrences |
| `Scripts.GetUniqueUsedKeys` | src/server/redis.go:188-211 | of the supplied keys, the first of each id some script declares |
| `Scripts.JoinRedisScripts` | src/server/redis.go:114-148 | the text renders the joined program, and the name lists come once per script |
| `ScriptText.BindingsRead` | src/server/redis.go:120-130 | read back line by line, the bindings are the names in their order, each of the table's entry of that number, counted from 1 |
| `ScriptText.ProgramRead` | src/server/redis.go:114-148 | the whole text reads back as the functions in their order, each with its keys, arguments and body, and the calls |
| `Scripts.CompileRedisScripts` | src/server/redis.go:213-239 | always succeeds, with the kept keys, the unique arguments and the joined text |
| `Scripts.Keys` | src/server/redis.go:245-253 | the values of the kept keys, in order |
| `Scripts.Args` | src/server/redis.go:255-269 | fails exactly when some name of the repeated list is missing; otherwise the values in order |
| `ScriptMeaning.UsedKeysAre` | src/server/redis.go:188-211 | a declared and supplied id is kept, with the key supplied first for it, and nothing else |
| `ScriptMeaning.InnerIs` | src/server/redis.go:119-136 | what every name stands for once a script's bindings have been made one after the other, and when they fail |
| `ScriptMeaning.NamesResolve` | src/server/redis.go:119-136 | every script finds its arguments, and the keys supplied first, under the names it declares, exactly if all its keys are supplied, none has an argument's name, and no key or argument named KEYS or ARGV takes the table away from a later binding |
| `ScriptMeaning.KeyNamedKeys` | src/server/redis.go:127-130 | a bundle whose key named KEYS makes the next key nil |
| `ScriptMeaning.CapturedExactly` | src/server/redis.go:119-136 | a name that a script does not declare keeps its meaning exactly if it is no name of the bundle, no table's and no earlier function's |
| `ScriptMeaning.FindOwn` | src/server/redis.go:132-136 | each call in the joined text finds its own function |
| `ScriptMeaning.JoinedMeansParts` | src/server/redis.go:114-148 | for any meaning of scripts, globals included, the text of a consistent bundle, read back, has the effect of its parts run in order up to the first error, and returns their results, if no script depends on a name captured from it |
| `ScriptMeaning.OneResultEach` | src/server/redis.go:145 | the list has one result for each script exactly if the last script returns one |
| `RetryQueue.ReqQueue.PushRequest` | src/server/httpReqQueue.go:31-41 | appends |
| `RetryQueue.ReqQueue.PopRequest` | src/server/httpReqQueue.go:43-56 | yields the front and leaves the tail; an empty request from an empty queue |
| `RetryQueue.ReqQueue.ExecuteRequest` | src/server/httpReqQueue.go:58-65 | queues exactly what failed |
| `RetryQueue.ReqQueue.DealTimeoutReq` | src/server/httpReqQueue.go:70-81 | one round: the front is taken, and put back at the end if it has a url and fails |
| `RetryQueue.RoundOutcome` | src/server/httpReqQueue.go:70-81 | a delivered request is gone from the queue, a failed one with a url stands last, and the others keep their order |
| `RetryQueue.RoundIsTwoSteps` | src/server/httpReqQueue.go:70-81 | a round is the conserving machine's Take, followed by Succeed or Fail |
| `RetryQueue.NothingLostNothingMadeUp` | src/server/httpReqQueue.go:31-84 | in every run, queued, attempted and delivered requests are together those accepted, with multiplicity, but for those with an empty url; never more |
| `RetryQueue.FullFailingCycle` | src/server/httpReqQueue.go:67-84 | as many failing rounds as there are requests restore the queue exactly when every request has a url |

## Left out

- RunMids: speaks of the members of a room. Somebody connected whose room could not be opened at connect time is no member, and its consumer count starts again with each new room of that name; `Runs.RoomMids` covers it for as long as one room lasts.
- JoinedMeansParts: key and argument names are words of letters, digits and underscores. The reader of the text is given the scripts' bodies, since only Lua's own grammar could tell where one ends: they are taken to be whole chunks, and the names to be neither keywords nor too many for Lua. A script that writes to the tables KEYS and ARGV themselves is not modelled, nor that Redis cuts a result list at its first nil.
- EachCallItsOwnReply: for at most 2^64 calls, after which the counter repeats ids (`Rpc.IdsRepeat`).
- Which of the routers stored at a worker belong to rooms, and which are left there by a close request that failed: the worker table and the rooms are separate machines.
- The calls of `grpcServer.go` are a machine on values rather than methods, because callers, the reader and timers interleave between the lines of one method.
- The handlers of `user.go` are methods of `WsServer`, which stands for the program's global state; the room manager and the connections are reached through it.
- The media parameters of a producer are modelled apart from the rooms: a room's machine carries ids, kinds, mids and the shape of the parameters only. The random cname of a video offer is not counted among the ids drawn there.
- A producer's encodings are pointers in Go; the model shares the slice that holds them and takes the pointers to be distinct, as decoding makes them.
- Copying codecs, feedback and header extensions into worker requests, and the payload type offsets of the mapping: one-branch copying.
- ICE, DTLS and SCTP parameters of transports, and the reply of `ConnectWebrtcTransport` beyond accepted or not.
- CreateNewConsumerData: has Go's conditions for not panicking on the codecs as its precondition, and the encodings in `Media` are not null; what happens otherwise is in the rooms (`Malformed`), which keep of a producer's parameters only what decides it.
- `ReqOtherNewDataConsumer`, `CreateConsumes`, `getUniqueKeys` and other functions nobody calls.
- Data races on the unlocked maps, waiting on the unbuffered channel of a user whose connection has stalled, and real durations.
- gRPC, WebSocket, HTTP, JSON, Redis, MySQL and mail plumbing, configuration and logging.
