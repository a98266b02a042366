# Verification of the DSA broker and SDK core

This project models the core of the C implementation of the DSA broker and SDK and proves what the
code promises. `dafny verify dfyconfig.toml` checks all of it.

**Delivery** (`Delivery*.dfy`, `Subscription.dfy`). A requester's subscriptions each own a ring of
slots and a counter of the slots in flight, and share the requester's list of pending acks.
`Delivery.dfy` states what every step does as functions on values: offering, pumping the window,
acknowledging, subscribing, unsubscribing, disconnecting and connecting. `Subscription.dfy` is the
code itself, in classes that update rings, counters, the pending list and the two maps in place;
every method is proved to compute the function of the same step. The other files prove the
protocol's properties over single steps and over whole runs.

**Streams** (`Registry*.dfy`, `StreamObjects.dfy`, `StreamBroker.dfy`, `NodeTree.dfy`,
`Waiting.dfy`, `Requester.dfy`, `LastValues.dfy`, `StreamValues.dfy`, `StrandedRun.dfy`). Which
subscription hangs on which stream, which one waits for its node, and what responders have been
asked for. `Registry.dfy` states the steps; `StreamObjects.dfy` and `StreamBroker.dfy` are the code
on subscribers and streams that refer to each other, on hash maps and on intrusive lists;
`NodeTree.dfy` is the lookup of a path in the tree of nodes, and `Waiting.dfy` tells which waiting
subscriptions are served. `Requester.dfy` shows that the two models of subscribing, this one and
that of delivery, stay together, `LastValues.dfy` runs both with the last values of the streams, and
`StreamValues.dfy` tells which these are and who is handed which.

**Containers** (`RingBuffer.dfy`, `Vector.dfy`, `List.dfy`, `HashMap.dfy`). Each is a class with the
layout of the C structure, proved to refine a sequence or a sequence of bindings, for every hash
function. Delivery uses the ring and the vector, the streams use the map and the list.

**Codecs and trees** (`Base64*.dfy`, `Escape.dfy`, `Url*.dfy`, `Permission*.dfy`, `Json.dfy`,
`Serialization.dfy`, `Query*.dfy`). Round trips with their exact conditions, permissions with early
exit against the simple maximum, and the pruned query walk against the full one.

## What the code does, where that is not obvious

Where code and documentation differ, the model follows the code.

- The ack loop goes from the largest retired id down, and its first turn pops every acked slot while
  the counter still counts the others. The sent slots stay the front of the ring exactly when an ack
  retires at most one entry of a subscription or leaves fewer slots than were in flight
  (`AcknowledgeOrder`); `CumulativeAckSkips` is a run that overtakes a value, for every window and
  every ring with two slots more; with less room no ack can (`RunNarrow`).
- A push into a full ring with sent slots in it moves every slot by one, so that the counter no
  longer tells the slots sent (`OfferExact`). The order of the values sent survives that for as long
  as nothing is sent from such a counter: an offer loses it exactly when something was sent before,
  the ring is full and the window is not; an ack loses it exactly when it retires several entries,
  not all of them of evicted slots, and leaves no fewer slots than were counted; a request at QoS 2
  under another sid loses it exactly when it sends with fewer sent slots left than the counter
  counts, or behind an unsent value that is gone, and one below QoS 2 when offering the last value
  does (`OrderClean`, `StepOrder`, `RunOrder`). So a client that acks one by one gets a run of the
  values through any overflow, as long as no value comes into a full ring while its window has room.
  `EvictionSkips` is a run in which the order is lost.
- An ack of several entries leaves the window full only when the whole ring was in flight
  (`AcknowledgeOrder`), and a request for QoS 2 that repeats path and sid of a subscription sends
  nothing (`SubscribeFills`).
- `broker_free_sub_requester` reads the requester's list of pending acks whenever the subscription
  has a ring, also when nothing was ever sent and there is no list. That happens exactly after a
  requester takes up a path below QoS 2 that got values while it was away, on a stream without a
  last value, before anything was sent to it (`StepSafe`, `DefinedExact`). `StrandedValue` is the
  run, whatever window and ring. For the stream to have no last value it must have been freed in
  between, under the waiting subscription: without that it cannot happen (`LastValues.RunHeld`), and
  `StrandingByFreeing` is the run with the streams.
- A client that subscribes under the sid 0xFFFFFFFF breaks the agreement of the two subscription
  maps, and nothing else does (`StepExact`).
- Two subscriptions of one requester that lead to one stream overwrite each other there; this is the
  only way to break the two-way link (`AttachExact`, `ArriveExact`). Two paths lead to one stream of
  a link when they differ in the slash in front only, as `downstream/x/y` and `/downstream/x/y` do,
  or when one is the link's own path and the other repeats its name behind it, and in no other case
  (`Collisions`, `CollisionHappens`).
- When a stream is freed its subscribers wait by the kind of its node. For a path without a slash in
  front the key of the list is one that no link announces (`FreedWaitsFor`).
- A path that waits is served when its node appears if and only if it begins with a slash and, below
  `/downstream/` or `/upstream/`, has a name and a slash behind that, elsewhere has no slash at its
  end (`WaitingExact`, `AppearsServed`). A link's own path waits in no list at all while the link is
  unknown, and neither do paths without a slash in front in which the search for the slash begins
  too late (`ListlessExact`); such a subscription is never put on a stream (`StrandedStays`).
- A node that publishing makes takes out the lists of the nodes above it, not its own, so what waits
  for it goes on waiting (`PublishedWaitsOn`).
- A stream starts with the QoS 0xFF, so a responder is never asked for a new stream of QoS 255
  (`AttachExact`).
- The base64url decoder reads up to two bytes behind the text. An `=` there is counted as padding,
  so decoding is exact if and only if none of these bytes is CR, LF, a space or `=`.
- The base64url decoder writes whole groups. Of the room that it asks for, it writes one byte more
  exactly when one byte is left for the last group and the bytes behind the text do not disturb it
  (`Base64RoundTrip.RoundTrip`).
- `%` is below `,` and therefore escaped by the first test of `dslink_str_escape`; the test of the
  wrong pointer in its write loop never matters. Escaping is undone exactly for seven-bit strings.
- A port in an address without a path is not read; the default of the scheme is used.
- The length of the address parser has 8 bits. A part of 256 characters or more is never left; a
  path of 255 characters reads as `/`; and when the slashes behind the scheme reach the end of what
  it can count, the scheme is read again as the host. A colon in front takes 255 characters for the
  scheme (`Url.Parsed`, `MachineExact`). So addresses come back for schemes of 1 to 252 characters,
  hosts of up to 255 and paths of up to 254, and besides by chance for two families with a scheme of
  251 characters or more (`UrlRoundTrip.RoundTrip`, `ExceptionsHappen`).
- A query gives up below a node that does not match. Over all strings that is right for exactly the
  patterns whose only `*` is the last character (`PruningExact`). On the trees that the broker
  builds below `/data`, from names without slashes, it is right for exactly those patterns
  `/data/...` and those with an empty name, which match nothing (`DataPatternExact`; `RootedExact`
  when the beginning has `?`). Of the others, one that differs from `/data` before any wildcard
  watches nothing and matches nothing, as `x*y` does (`ForeignPattern`); one whose first `*` comes
  within the root's path, which fails, misses what it matches unless it has an empty name behind the
  `*` (`FailingRoot`); and one that the root passes may be right, as `/*a*`, or wrong, as `*a/x`
  (`PassingRoot`). For every pattern the walk is right on all trees if and only if no path below a
  failing one matches (`QueryTrees.WalkExact`).
- A permission list that is loaded from an array without a readable entry is an empty list, which is
  saved as none.

## Model

| member | source | states |
|---|---|---|
| Delivery.NextId | broker/src/net/ws.c:73-76 | ids count up from 1 and start again after 2147483647 |
| Delivery.AckedCount | broker/src/subscription.c:304-322 | removal from the front takes exactly the sent slots up to the acked id and stops at the first other one |
| Delivery.PumpGrows | broker/src/subscription.c:245-267 | pumping only appends to the pending acks, so the ack loop walks a stable prefix |
| DeliveryInvariants.PumpEffect | broker/src/subscription.c:245-288 | a pump sends a run of unsent slots from the counter on, with consecutive ids, one pending ack each, never beyond the window, and ends only when nothing more may be sent |
| DeliveryInvariants.RetiredExact | broker/src/subscription.c:64-70 | on sorted pending acks the upper bound splits them at the acked id |
| DeliveryInvariants.AcknowledgeExact | broker/src/subscription.c:64-83 | after any ack, cumulative or not, the pending acks are the old ones above it followed by those sent during the loop, still sorted |
| DeliveryInvariants.AcknowledgeKeepsConservation | broker/src/subscription.c:64-83 | every ack leaves each counter equal to the number of the subscription's pending acks, within the window, without underflow |
| DeliveryInvariants.OfferKeeps | broker/src/subscription.c:324-333 | an offer keeps conservation, the window, the contents of the ring and the agreement of the maps |
| DeliveryInvariants.FreeKeeps | broker/src/subscription.c:148-191 | a freed subscription leaves no pending ack and no entry in either map behind |
| DeliveryInvariants.SubscribeKeeps | broker/src/msg/msg_subscribe.c:153-219 | all cases of subscribing, with sid reuse and a path under a new sid, keep the invariant |
| DeliveryInvariants.UnsubscribeKeeps | broker/src/msg/msg_unsubscribe.c:36-43 | unsubscribing keeps the invariant |
| DeliveryInvariants.ClearIdsEffect | broker/src/subscription.c:193-204 | clearing the ids zeroes exactly the slots in flight and changes no message |
| DeliveryInvariants.DisconnectKeeps | broker/src/remote_dslink.c:52-78 | disconnecting keeps the invariant: no pending acks, no sids, and only subscriptions of QoS 2 remain |
| DeliveryInvariants.StepExact | broker/src/msg/msg_subscribe.c:195-218 | any step keeps the whole invariant if and only if it is not a subscription under the reserved sid |
| DeliveryInvariants.RunKeeps | broker/src/subscription.c:49-322 | in every run counters equal pending acks within the window, rings hold exactly the last values offered, both subscription maps agree and a subscription is missing from the sid map only under the sid 0xFFFFFFFF |
| DeliveryOrder.PumpFills | broker/src/subscription.c:245-267 | on a ring whose slots behind the counter are unsent a pump sends min(window, length) minus the counter |
| DeliveryOrder.OfferExact | broker/src/subscription.c:290-333 | an offer keeps the sent slots the front of the ring, with the subscription's ids, if and only if it evicts no slot in flight, and then fills the window |
| DeliveryOrder.AcknowledgeSub | broker/src/subscription.c:64-83 | what an ack of any size does to one subscription: slots popped, slots sent, ids and pending acks |
| DeliveryOrder.AcknowledgeOrder | broker/src/subscription.c:71-81 | an ack keeps the sent slots a prefix if and only if it retires at most one entry or leaves fewer slots than were in flight; whatever the window was before, it is full after the ack if and only if one entry was retired, or several while the whole ring was in flight, or none while it was full |
| DeliveryRuns.StepSorted | broker/src/subscription.c:49-62 | pending acks stay sorted until ids wrap on one connection |
| DeliveryRuns.StepAligned | broker/src/subscription.c:64-333 | for every kind of event, sent slots stay the prefix with strictly increasing ids equal to the pending acks if and only if the event is clean |
| DeliveryInOrder.StepOrder | broker/src/subscription.c:64-355 | from every state in which the values sent for a subscription are in order, whatever was evicted or acked before, an event keeps them a contiguous run of the positions offered if and only if it is clean in a sense that ring, counter and leading sent slots tell before it |
| DeliveryInOrder.RunOrder | broker/src/subscription.c:193-355 | over every run the values sent on each connection are a contiguous in-order run of the values offered, at every point, if and only if all its events are clean in that sense |
| DeliveryInOrder.DisconnectRestores | broker/src/subscription.c:193-204 | after any run, in order or not, the next connection begins in order if and only if clearing the ids reaches every slot that was sent |
| DeliveryInOrder.ContiguousValues | broker/src/subscription.c:245-288 | contiguous positions are what the client sees: the messages sent are a slice of those offered |
| DeliveryWindow.RunInOrder | broker/src/subscription.c:193-355 | the special case without evictions in flight: in a run whose events keep the sent slots the prefix, everything is in order |
| DeliveryRuns.SubscribeElsewhere | broker/src/msg/msg_subscribe.c:178-219 | subscribing changes no other subscription, except that it frees the one whose sid it takes over |
| DeliveryRuns.SubscribeSids | broker/src/msg/msg_subscribe.c:178-219 | after a request its path holds the sid and QoS asked for, its former sid is gone, and every other sid leads where it did |
| DeliveryRuns.StepSids | broker/src/msg/msg_subscribe.c:178-219 | what every kind of event does to the sids: requests as above, unsubscribing removes the one sid and its subscription, closing the link removes all sids and all subscriptions below QoS 2, and nothing else changes any |
| DeliveryRuns.StepOffers | broker/src/subscription.c:324-366 | a subscription has been offered what it had been before, and the value the event hands to it: a new one, or the last one on a request that makes it or moves it to another sid below QoS 2 |
| DeliveryRuns.StepLink | broker/src/net/ws.c:72-91 | only connecting brings a requester back, and its ids begin again at 1; only closing the link takes it away |
| DeliveryWindow.SubscribeFills | broker/src/msg/msg_subscribe.c:181-210 | a subscription at QoS 2 leaves the window full if and only if it does not repeat path and sid of one whose window was not full; below QoS 2 it needs a last value or a full window |
| DeliveryWindow.StepFills | broker/src/subscription.c:64-333 | for every kind of clean event, whether the window of a live subscription is full afterwards, as a condition on the state before |
| DeliveryWindow.RunFills | broker/src/subscription.c:64-333 | after every clean run the window is full if and only if the last event fills it: in particular after a value offered, an ack of one entry and a new request at QoS 2 |
| DeliveryLoss.StepLeavesOpenly | broker/src/subscription.c:290-322 | a value leaves the ring only as the oldest of a full ring or because its own id is acked, whatever the event |
| DeliveryLoss.WaitingRun | broker/src/remote_dslink.c:59-75 | while its requester is away a QoS 2 subscription loses only what a full ring evicts |
| DeliveryLoss.ResumeAtOldestUnacked | broker/src/msg/msg_subscribe.c:193-210 | after a disconnection and any run until the requester subscribes again, a QoS 2 subscription sends from the oldest unacked value on, none skipped, as far as the window goes |
| DeliveryWindow.RunNarrow | broker/src/subscription.c:71-81 | with a ring of at most one slot more than the window every ack is clean, whatever it retires, in every run whose other events are |
| DeliveryFree.StepSafe | broker/src/subscription.c:174-185 | every event keeps the states in which nothing is freed without a list, if and only if it does not take up a path with values below QoS 2, without a last value, before anything was sent |
| DeliveryFree.DefinedExact | broker/src/subscription.c:174-185 | in exactly these states no event that can happen reads a list of pending acks that does not exist |
| DeliveryFree.RunDefined | broker/src/subscription.c:148-191 | in every run without such a request every event was defined, and every next one will be |
| DeliveryExamples.CumulativeAckSkips | broker/src/subscription.c:71-81 | for every window and every ring with at least two slots more, as a run of a new requester: the ack of the first two entries sends the second value behind the window and leaves the first behind it, unsent |
| DeliveryExamples.EvictionSkips | broker/src/subscription.c:290-302 | for every window and ring, as a run of a new requester: after an eviction with the window in flight and the ack of the evicted entry, the next value offered sends the second value behind the window before the first |
| DeliveryExamples.StrandedValue | broker/src/msg/msg_subscribe.c:181-212 | for every window and ring, a run of clean events that leaves a value in the ring, an empty window and no list: the same request at QoS 2 sends nothing, and unsubscribing reads the missing list |
| Subscription.RemoteDSLink.SendObj | broker/src/net/ws.c:72-91 | a message takes the next id of the link |
| Subscription.SubRequester.RemoveFromMessageQueue | broker/src/subscription.c:304-322 | the loop pops exactly what the specification drops and says whether it popped |
| Subscription.SubRequester.AddToMessageQueue | broker/src/subscription.c:290-302 | the ring is made on first use, and a push into a full one drops the oldest value |
| Subscription.SubRequester.ClearMessageIds | broker/src/subscription.c:193-204 | the count-down loop clears the ids of the slots in flight |
| Subscription.DownstreamNode.AddPendingAck | broker/src/subscription.c:49-62 | an entry is appended and the counter of the subscription goes up |
| Subscription.DownstreamNode.SendMessage | broker/src/subscription.c:269-288 | one send is the step of the specification on the slot at the counter |
| Subscription.DownstreamNode.SendQueuedMessages | broker/src/subscription.c:245-267 | the sending loop is the pump of the specification |
| Subscription.DownstreamNode.UpdateSubReq | broker/src/subscription.c:324-333 | an offer to the objects is the offer of the specification |
| Subscription.DownstreamNode.CheckSubscriptionAck | broker/src/subscription.c:64-83 | the backward loop with its nested sends, then the erased range, is the acknowledgement of the specification |
| Subscription.DownstreamNode.FreeSubRequester | broker/src/subscription.c:148-191 | the subscription leaves both maps and its entries leave the pending acks, the others in order, wherever the code is defined |
| Subscription.DownstreamNode.HandleUnsubscribe | broker/src/msg/msg_unsubscribe.c:36-43 | refines the unsubscription of the specification, wherever it is defined |
| Subscription.DownstreamNode.HandleSubscribe | broker/src/msg/msg_subscribe.c:153-219 | refines all branches of the subscription of the specification, the reserved sid included, wherever it is defined; but for that sid, the sid then leads to the object that the path leads to, the path's former sid is gone from req_sub_sids and the others lead where they did |
| Subscription.DownstreamNode.Disconnect | broker/src/remote_dslink.c:52-78 | the three loops over the subscriptions refine the disconnection of the specification, wherever it is defined |
| Subscription.DownstreamNode.Connect | broker/src/node/node.c:353-354 | a new link starts counting ids again |
| Subscription.Serve | broker/src/subscription.c:49-355 | through every run that strands no value the handlers, applied to the objects one after the other, find what they rely on and end in the state of the run |
| Registry.BaseLen | broker/src/node/node.c:384-397 | the length found ends at a slash inside the path, or is zero |
| Registry.MaxQos | broker/src/subscription.c:398-407 | the maximum over the subscribers bounds each of them and is reached by one |
| RegistryInvariants.LinkBothWays | broker/src/msg/msg_subscribe.c:56-57 | a subscription names a stream if and only if the stream names it for its requester, and none is both attached and waiting |
| RegistryInvariants.AttachExact | broker/src/msg/msg_subscribe.c:34-63 | attaching keeps the invariant if and only if the requester has no other subscription on the stream and no new responder stream is asked for QoS 255 |
| RegistryInvariants.PendKeeps | broker/src/msg/msg_subscribe.c:84-124 | entering the list for a path, or none if there is no such list, keeps the invariant |
| RegistryInvariants.FreeKeeps | broker/src/subscription.c:156-166 | freeing takes the subscription off its list and its stream and closes the stream when it was the last |
| RegistryRuns.UpdateQosKeeps | broker/src/subscription.c:417-435 | a change of QoS keeps the stream covering its subscribers and its responder informed |
| RegistryRuns.FreeStreamKeeps | broker/src/stream.c:143-168 | all subscribers of a freed stream wait again, in the list that the kind of the stream's node and their path tell, and nobody else changes |
| RegistryRuns.StreamForInjective | broker/src/node/node.c:373-376 | two subscriptions of one requester in one waiting list get different streams |
| RegistryRuns.ArriveKeeps | broker/src/node/node.c:366-379 | when a node appears everyone in its list is attached and dismissed, and nobody else moves |
| RegistryRuns.ArriveExact | broker/src/data/data.c:86-102 | and the invariant is kept if and only if no one in the list finds its place taken |
| RegistryRuns.ConnectKeeps | broker/src/node/node.c:353-379 | a link that comes up keeps the invariant while the waiting list of its node is attached |
| RegistryRuns.ResponderGoneKeeps | broker/src/node/node.c:340-351 | a link that goes down keeps the invariant |
| RegistryLinks.StepLinks | broker/src/node/node.c:340-379 | only a link that comes up or goes down changes which responders are there, each that of its own node |
| RegistryLinks.ConnectTells | broker/src/node/node.c:353-379 | a link that comes up is asked for every live stream of its node, those that waiting subscriptions open included, at the stream's QoS; of other nodes nothing is asked or changed |
| RegistryLinks.ResponderGoneTells | broker/src/broker.c:262-292 | when a link is gone nothing counts as asked of its node, and that is all that changes |
| RegistryLinks.RunTold | broker/src/subscription.c:398-415 | in every clean run a responder is there if and only if the last event about its link was that it came up, and what responders have been asked for is exactly the live streams of those that are there, each at its QoS |
| RegistryRuns.FreeAllKeeps | broker/src/remote_dslink.c:66-70 | freeing the collected subscriptions frees exactly these, in any order |
| RegistryRuns.SubscribeExact | broker/src/msg/msg_subscribe.c:127-150 | a new subscription keeps the invariant if and only if its requester has no other one on the stream the tree leads it to, QoS 255 on a new responder stream apart |
| RegistryRuns.RunKeeps | broker/src/msg/msg_subscribe.c:34-219 | in every clean run the two-way link holds, no live stream is empty, respQos covers all subscribers and no responder is asked to keep a stream that is closed |
| StreamObjects.StreamTable.Put | broker/src/msg/msg_subscribe.c:57 | a subscriber enters the hash map of one stream, and every other stream stays as it was |
| StreamObjects.WaitTable.Remove | broker/src/subscription.c:156-161 | a node is spliced out of the list that it names itself, and every other list stays as it was |
| StreamBroker.Broker.MaxQosOf | broker/src/subscription.c:402-407 | the walk along the entries of the stream's map finds the highest QoS of the subscribers that they refer to |
| StreamBroker.Broker.UpdateStreamQos | broker/src/subscription.c:398-415 | the stream's QoS becomes that maximum, and a connected responder is asked for it exactly on a change |
| StreamBroker.Broker.SubscribeTo | broker/src/msg/msg_subscribe.c:34-63 | the subscriber refers to its stream and the stream's map to the subscriber, the stream being opened on first use |
| StreamBroker.Broker.DownstreamBaseLen | broker/src/node/node.c:384-397 | the search finds the base length of the specification |
| StreamBroker.Broker.InsertPending | broker/src/msg/msg_subscribe.c:92-124 | the subscriber joins the intrusive list under the key, made on first use, and keeps its node |
| StreamBroker.Broker.Unpend | broker/src/subscription.c:156-161 | the subscriber leaves its list through its own node, and the list keeps its order |
| StreamBroker.Broker.FreeSubRequester | broker/src/subscription.c:148-166 | the subscriber leaves list, stream and table, the stream is closed when it was the last, and no reference to it is left |
| StreamBroker.Broker.StreamFree | broker/src/stream.c:143-168 | the walk along the stream's map detaches every subscriber and lets it wait by the kind of the node, and no reference to the stream is left |
| StreamBroker.Broker.SubscribeAll | broker/src/node/node.c:373-378 | the walk along a list that has left the table attaches all of it |
| StreamBroker.Broker.FreeList | broker/src/msg/msg_subscribe.c:67-82 | freeing a list leaves none of its subscribers waiting |
| StreamBroker.Broker.AnnounceAll | broker/src/node/node.c:361-364 | the node is there afterwards, and its responder has been asked for every stream of it at the stream's QoS, in any order |
| StreamBroker.Broker.Summon | broker/src/node/node.c:366-379 | the list of a node that appears is taken out, attached and freed |
| StreamBroker.Broker.FreeCollected | broker/src/remote_dslink.c:66-70 | the loop over collected subscriptions frees each |
| StreamBroker.Broker.HandleSubscribe | broker/src/msg/msg_subscribe.c:153-219 | all branches of subscribing on the objects, the displaced subscription included |
| StreamBroker.Broker.BothEnds | broker/src/msg/msg_subscribe.c:56-57 | as references: a subscriber refers to a stream if and only if the stream's map leads from its requester to it, and then it does not wait |
| StreamBroker.Serve | broker/src/msg/msg_subscribe.c:34-219 | through every clean run the handlers, applied to the objects one after the other, end in the state of the run |
| Requester.StepTogether | broker/src/msg/msg_subscribe.c:178-219 | every event of a requester keeps its subscriptions the same, paths and QoS, in the model of delivery and in that of streams; the path that the latter sees displaced is the one that held the sid |
| Requester.ForeignTogether | broker/src/stream.c:143-168 | and nothing that others do parts them |
| LastValues.ValueKept | broker/src/msg/msg_subscribe.c:56-63 | a subscription keeps its stream and the stream its last value over everything but the freeing of that stream |
| LastValues.StepHeld | broker/src/subscription.c:357-376 | as long as no stream is freed under a subscription that got values on it, each event of requester, streams and registry leaves whoever got a value on a stream with a last value, and no request can strand a value |
| LastValues.RunHeld | broker/src/subscription.c:148-191 | so in every such run nothing the requester does reads a list of pending acks that does not exist |
| StreamValues.RunValues | broker/src/subscription.c:371-395 | at every point of every run a live stream has the value published on it last, or the one of its node when nothing has been published on it since it was opened |
| StreamValues.StepHands | broker/src/subscription.c:357-376 | in every step a subscription is handed exactly the values due to it: a new one of its stream, the last one of a stream that it joins, and the last one of its stream on a request that does not repeat path and sid, nor ask for QoS 2 on a path that is there |
| StrandedRun.StrandingByFreeing | broker/src/stream.c:143-168 | and one freed stream is enough: a run with streams and last values that strands a value and then reads the missing list |
| NodeTree.RemoteTarget | broker/src/node/node.c:18-67 | a path that leads to a link, with or without a slash in front, splits into its node and the rest, or is the node's own path with the name as rest |
| NodeTree.GetExact | broker/src/node/node.c:18-67 | a path of names leads to the first link on the way, with what is behind it; without one, to the node the names lead to from child to child; and nowhere if there is none |
| NodeTree.Collisions | broker/src/node/node.c:25-58 | two paths that lead to links lead to one stream if and only if they differ at most in the slash in front, or one is the node's own path and the other repeats its name; a name alone collides with no other path |
| NodeTree.CollisionHappens | broker/src/node/node.c:25-58 | and for every link they do |
| NodeTree.BaseLenExact | broker/src/node/node.c:384-397 | the base length of a path below a link covers exactly kind and name |
| NodeTree.WaitingLeadsHome | broker/src/node/node.c:366-378 | a path that waited for its link is given the stream the tree then leads it to |
| NodeTree.LocalTarget | broker/src/node/node.c:22-66 | a path leads to the node of that path, with or without slashes in front and behind; two paths to one node differ in these only, and a slash behind a path that has none makes no difference |
| NodeTree.FreedWaitsFor | broker/src/stream.c:143-149 | the subscribers of a freed stream of a link wait under the link's path, but under a key that no link announces when their path has no slash in front |
| Waiting.WaitingExact | broker/src/msg/msg_subscribe.c:84-150 | for every path and every broker tree with its node: the key under which the path waits is the one that the node announces if and only if it has a slash in front and, below the links' directories, a name and a slash behind that, elsewhere no slash at the end; and then the stream it is given is the one the tree leads to |
| Waiting.AppearsServed | broker/src/data/data.c:86-102 | in every reachable state, when the node of a waiting path appears, the subscription is put on that stream if and only if its path is such a one, and else stays as it is |
| Waiting.PublishedWaitsOn | broker/src/data/data.c:175-232 | a node made by publishing is there afterwards, but of the waiting lists only those of nodes above it are taken out |
| Waiting.PublishExact | broker/src/data/data.c:175-232 | publishing makes exactly the nodes missing on the path, and takes out the list of the node above each of them, from the top |
| Waiting.RunPlaced | broker/src/msg/msg_subscribe.c:84-150 | in every clean run led by broker trees every subscription is on a stream and in no list, or waits in exactly one, once, or is in neither and has a link path without a list |
| Waiting.ListlessExact | broker/src/node/node.c:384-397 | which link paths have no list: with a slash in front the links' own, without one those whose next slash is not behind the place where the search begins |
| Waiting.StrandedStays | broker/src/msg/msg_subscribe.c:84-92 | a subscription on no stream and in no list stays so over every event until it is freed |
| Ring.CleanedExactlyOnce | sdk/src/col/ringbuffer.c:35-139 | over any pushes and pops what was pushed is what was cleaned up followed by what is live, each once and in order |
| Ring.RingBuffer.Push | sdk/src/col/ringbuffer.c:35-62 | appends, dropping and cleaning the oldest element of a full buffer |
| Ring.RingBuffer.Front | sdk/src/col/ringbuffer.c:64-78 | the oldest live element |
| Ring.RingBuffer.At | sdk/src/col/ringbuffer.c:80-100 | the i-th oldest live element, across the end of the buffer |
| Ring.RingBuffer.Pop | sdk/src/col/ringbuffer.c:102-124 | removes and cleans the oldest element |
| Ring.RingBuffer.Free | sdk/src/col/ringbuffer.c:126-139 | cleans every live element |
| Vec.UpperBoundExact | sdk/src/col/vector.c:241-271 | on sorted input the halving search returns the first element greater than the key |
| Vec.Vector.Append | sdk/src/col/vector.c:60-75 | appends, growing the buffer when it is full |
| Vec.Vector.EraseRange | sdk/src/col/vector.c:124-147 | removes exactly the range, the rest in order |
| Vec.Vector.Find | sdk/src/col/vector.c:149-162 | the first equal element or -1 |
| Vec.Vector.RemoveIf | sdk/src/col/vector.c:164-182 | moves the elements kept to the front, in order |
| Vec.RemoveAll | broker/src/subscription.c:175-177 | with the erased rest that is an order-preserving filter |
| Vec.Vector.BinarySearchRange | sdk/src/col/vector.c:193-230 | on sorted input finds the key if it is there, without unsigned underflow |
| Vec.Vector.UpperBoundRange | sdk/src/col/vector.c:241-271 | the loop computes the halving search |
| IntrusiveList.NeighboursAfterDrop | sdk/include/dslink/col/list.h:81-90 | unlinking a node changes exactly the neighbours it had |
| IntrusiveList.List.InsertNode | sdk/include/dslink/col/list.h:64-79 | the node is the new last one and all links are right |
| IntrusiveList.List.RemoveNode | sdk/include/dslink/col/list.h:81-90 | the node is gone, the rest keeps its order and all links are right |
| IntrusiveList.List.Insert | sdk/src/col/list.c:12-21 | a new node with the value is the last one |
| HashMap.LookupUpdated | sdk/src/col/map.c:229-251 | setting is seen at its key and nowhere else, keys stay unique and the size grows by one for a new key |
| HashMap.LookupRemoved | sdk/src/col/map.c:257-289 | removing is seen at its key and nowhere else |
| HashMap.Map.Find | sdk/src/col/map.c:140-178 | the walk along a chain finds the node of the key, or shows the key is not in the map |
| HashMap.Map.Get | sdk/src/col/map.c:324-332 | the value of the finite map |
| HashMap.Map.Contains | sdk/src/col/map.c:309-317 | membership in the finite map |
| HashMap.Map.AppendNode | sdk/src/col/map.c:123-188 | a new node goes to the end of its chain and its entry to the end of the list, with all prev and next links right |
| HashMap.Map.Remove | sdk/src/col/map.c:257-289 | in all four pointer cases chain, list and size stay right; a locked map refuses |
| HashMap.Map.Rehash | sdk/src/col/map.c:191-227 | doubling the table rebuilds every chain and changes no binding and no order |
| HashMap.Map.Set | sdk/src/col/map.c:229-251 | updates the finite map, keeping 4*size <= 3*capacity with capacity 8*2^k |
| HashMap.Map.Clear | sdk/src/col/map.c:112-120 | the map is empty |
| HashMap.Map.JoinedHashed | sdk/src/col/map.c:205-224 | adding one node keeps every chain, bucket and entry of a partly filled table right |
| HashMap.Map.DetachedValid | sdk/src/col/map.c:262-285 | unlinking one node keeps the whole representation right |
| HashMap.Map.CapacityDoubles | sdk/src/col/map.c:233-239 | below the load factor there is always room for one more entry |
| Base64.EncChar | sdk/src/base64_url.c:8-36 | the two tables are inverse on the alphabet |
| Base64.AlphabetExact | sdk/src/base64_url.c:8-17 | the alphabet is the URL and filename safe one of section 5 of RFC 4648, character by character |
| Base64.DecValueExact | sdk/src/base64_url.c:19-34 | no other character but `=` has a place in the table of the decoder |
| Base64.GroupIsNumber | sdk/src/base64_url.c:75-94 | the text of a group is its bytes as a number, the first byte the highest, in base 64, filled up with two or four zero bits |
| Base64.Encode | sdk/src/base64_url.c:38-99 | the buffer holds the encoded text and a zero, or the needed size is told |
| Base64.CountText | sdk/src/base64_url.c:106-145 | the first pass counts characters and dots and rejects what it rejects |
| Base64.Decode | sdk/src/base64_url.c:101-187 | the two passes compute the specification's bytes and length, whenever the room holds what an accepted text writes |
| Base64.WholeGroups | sdk/src/base64_url.c:156-180 | room for whole groups always does |
| Base64RoundTrip.EncodedAlphabet | sdk/src/base64_url.c:75-94 | an encoded text has only characters of the alphabet |
| Base64RoundTrip.ShiftFour | sdk/src/base64_url.c:164-178 | whatever the accumulator held, four characters leave its low 24 bits to the group |
| Base64RoundTrip.EatTail | sdk/src/base64_url.c:161-184 | what the last group writes, for every pair of bytes behind the text |
| Base64RoundTrip.RoundTrip | sdk/src/base64_url.c:38-187 | for every room: the writes stay inside it exactly except at the size asked for with one byte in the last group; and the data comes back inside it if and only if no byte behind the text is CR, LF, a space or `=` and the room is the size asked for, one more in that case |
| Escape.StrEscape | sdk/src/utils.c:136-165 | the length counted by the first loop is exactly what the second writes |
| Escape.StrUnescape | sdk/src/utils.c:167-192 | the result fits the buffer and is the unescaped text |
| Escape.EncodeBase16 | sdk/src/utils.c:111-134 | the two digit functions are inverse |
| Escape.EscapeCharExact | sdk/src/utils.c:136-165 | a seven-bit character that a file name may hold stays, and any other becomes `%` and its two digits, the high one first |
| Escape.DecodeExact | sdk/src/utils.c:111-122 | digits of both cases are read, and nothing else |
| Escape.PlainStays | sdk/src/utils.c:167-192 | a string in which no `%` has two digits behind it is unescaped to itself |
| Escape.EscapedIsPlain | sdk/src/utils.c:136-165 | an escaped text has no special character but `%` |
| Escape.RoundTrip | sdk/src/utils.c:136-192 | unescaping undoes escaping if and only if all characters have seven bits |
| Url.TurnKeeps | sdk/src/url.c:29-84 | a turn of the loop keeps what the address will make, wherever the 8-bit length wraps, and comes nearer to the end if there is one |
| Url.MachineExact | sdk/src/url.c:25-119 | the loop ends if and only if splitting the address by what 8 bits can count gives a result, and then it gives that result |
| Url.Parse | sdk/src/url.c:25-119 | the code, wherever it ends without reading behind the address, gives that result |
| UrlRoundTrip.PortReadBack | sdk/src/url.c:77 | every 16-bit port is read back |
| UrlRoundTrip.PortText | sdk/src/url.c:77 | a port is read behind spaces, with a sign, as far as there are digits; a minus counts down from 65536 |
| UrlRoundTrip.PortlessAddress | sdk/src/url.c:131-143 | an address without a port is read with port 80 for http, 443 for https and 0 otherwise, is secure for https only, and has the path `/` when it ends with the host |
| UrlRoundTrip.RoundTrip | sdk/src/url.c:25-128 | printing and parsing gives an address back if and only if it is regular, with the bounds of an 8-bit length, or in one of two families with a scheme of 251 to 255 characters where the wrapped length hits |
| UrlRoundTrip.RoundTripUsual | sdk/src/url.c:25-128 | with a scheme of up to 250 characters, or a path that is not just a slash, there is no exception |
| UrlRoundTrip.ExceptionsHappen | sdk/src/url.c:29-44 | both families have members |
| Permission.StrLevel | broker/src/permission/permission.c:19-30 | the level of the name, or never |
| Permission.FirstMatchExact | broker/src/permission/permission.c:87-98 | a list gives a group the level of its first entry for this group or for `default`, and none without one |
| Permission.ComponentsOfJoin | broker/src/permission/permission.c:144-182 | names joined by slashes are taken off the path again, with or without a slash at the end |
| Permission.FieldsOfJoin | broker/src/permission/permission.c:46-84 | groups joined by commas are read back |
| Permission.FieldsApart | broker/src/permission/permission.c:46-84 | fields are read from both sides of every comma |
| Permission.FieldAlone | broker/src/permission/permission.c:46-84 | and an empty field is no group |
| Permission.GroupsLoad | broker/src/permission/permission.c:46-84 | the non-empty fields and the dsId, within the grown array |
| Permission.GetCurrentPermission | broker/src/permission/permission.c:87-107 | raises the levels group by group until one is config |
| Permission.GetNodePermission | broker/src/permission/permission.c:110-182 | the recursion along the path is the specification's walk |
| Permission.Permitted | broker/src/permission/permission.c:184-202 | computes the permission of the specification |
| Permission.PermissionIsBest | broker/src/permission/permission.c:87-202 | with all early exits the permission is config without a root list, else the maximum over nodes and groups of the first fitting entry |
| PermissionLists.BestIsMax | broker/src/permission/permission.c:87-202 | that maximum is a level that some list on the way gives some group, and none gives a higher one |
| Permission.PermissionGrows | broker/src/permission/permission.c:144-202 | a longer path never has less permission |
| PermissionLists.PermissionListLoad | broker/src/permission/permission.c:403-430 | reads exactly the well-formed entries |
| PermissionLists.LoadedEntryExact | broker/src/permission/permission.c:403-430 | an entry is read from an array of its group and the name of its level, and from nothing else |
| PermissionLists.LoadListExact | broker/src/permission/permission.c:385-430 | a list is read from every array but an empty one, with exactly the entries that are among its values; saved is the array of all entries, or nothing if there are none |
| PermissionLists.LoadSaveExact | broker/src/permission/permission.c:385-430 | a list survives saving and loading if and only if it is not empty |
| PermissionLists.SetExact | broker/src/permission/permission.c:206-273 | setting fails if and only if a regular node on the way is missing |
| PermissionLists.SetChangesOne | broker/src/permission/permission.c:206-273 | the list changes at its path and at no other |
| PermissionLists.SetThenRead | broker/src/permission/permission.c:206-361 | reading what was set gives its loaded and saved form |
| PermissionLists.ReadFinds | broker/src/permission/permission.c:300-361 | reading finds the list at the path |
| PermissionLists.SetPermissionExact | broker/src/permission/permission.c:275-296 | when setting succeeds, and that it changes permissions only at its path and below |
| PermissionLists.SetPermissionSets | broker/src/permission/permission.c:206-296 | when setting succeeds the list at the path is the one set, every other list is as it was, no node is lost and virtual ones are made on the way; else nothing changes |
| PermissionLists.GetPermissionExact | broker/src/permission/permission.c:300-370 | who may read is answered the list at the path, saved, others nothing; no list changes, and only virtual nodes on the way are made |
| PermissionLists.SetThenGet | broker/src/permission/permission.c:275-370 | what has been set is answered to whoever may read there then |
| PermissionLists.ReadChangesNothing | broker/src/permission/permission.c:300-370 | the nodes that reading creates change no permission |
| Serialization.RoundTrip | broker/src/node/node_serialization.c:13-91 | a virtual tree comes back, order and all, if and only if keys and names have their first characters right and no list is empty, on every level |
| Serialization.LinkRoundTrip | broker/src/node/node_serialization.c:45-61 | a link's node comes back with dsId, lists, tree and all metadata but the time of disconnection, if and only if its name is not one for metadata and its dsId is among the metadata |
| Serialization.FileRoundTrip | broker/src/node/node_serialization.c:35-151 | of the file of all links exactly these come back, each as it was, in their order |
| Serialization.SavedKeys | broker/src/node/node_serialization.c:13-33 | of a node are written its list under `?permissions`, its metadata under their keys, its children under their names, and nothing else |
| Serialization.LinkKeys | broker/src/node/node_serialization.c:96-151 | a link is read under a name that is not one for metadata and with the text under `$$dsId`; `$disconnectedTs` is not written |
| Query.Matches | broker/src/query/query.c:24-68 | the two-pointer loop with its recursion terminates and computes the specification |
| Query.MatchIsInLanguage | broker/src/query/query.c:24-68 | whatever matches is in the language of the pattern |
| Query.MatchExact | broker/src/query/query.c:24-68 | for patterns whose `?` end segments and whose only `*` is last, a path without wildcards matches if and only if it is in the language |
| Query.NoMatchBelow | broker/src/query/query.c:24-68 | a path that does not match has no extension that matches, even partially |
| Query.PruningExact | broker/src/query/query.c:24-68 | for exactly the patterns whose only `*` is the last character, no extension of a path that does not match matches |
| Query.WalkIsFilter | broker/src/query/query.c:114-133 | for these the pruned walk puts value listeners on exactly the matching nodes of the whole tree |
| QueryTrees.WalkExact | broker/src/query/query.c:114-133 | on all trees of data nodes, with the paths that adding a node makes, the pruned walk is the filter if and only if no path below one that fails matches |
| QueryTrees.DataPatternExact | broker/src/query/query.c:24-68 | for patterns that begin with `/data/` that holds if and only if the only `*` of the rest is its last character or the rest has an empty name |
| QueryTrees.RootedExact | broker/src/query/query.c:24-68 | the same for every beginning that the root's path uses up, `?` included |
| QueryTrees.ForeignPattern | broker/src/query/query.c:24-68 | a pattern that differs from the root's path before any wildcard matches no node |
| QueryTrees.FailingRoot | broker/src/query/query.c:41-54 | a pattern whose first `*` the root's path reaches and fails is pruned rightly if and only if what follows has an empty name |
| QueryTrees.PassingRoot | broker/src/query/query.c:41-54 | when the root passes such a pattern, pruning is right for some and wrong for others |
| Query.ParsedQuery.ChildAdded | broker/src/query/query.c:114-133 | the recursion adds the listeners of the specification, in order |
| QueryGrowth.EnteredIsFilter | broker/src/query/query.c:119-125 | for patterns whose only `*` is last the query listens for new children at exactly the nodes of the whole tree that match or match partially, parents first |
| QueryGrowth.ListeningExact | broker/src/query/query.c:24-68 | when besides every `?` ends a segment, these are exactly the paths that a match can begin with |
| QueryGrowth.GrowthExact | broker/src/query/query.c:114-137 | for every pattern, a child added at a node where the query listens, and nowhere else, brings the listeners of walking the child, and so those of walking the new tree |
| QueryGrowth.HistoryExact | broker/src/query/query.c:114-137 | however the tree has grown, the query listens where it would if it were started on the tree as it is |

## Left out

- Sockets, TLS, timers, WebSocket framing, HTTP and handshakes: sending appends to a history.
- QoS 3: it sends outside the ring and keeps its own queue on disk.
- JSON building, reference counts and failures of allocation: messages are opaque strings.
- broker_update_sub_stream: a value reaches the subscriptions of a stream as one offer each. In the
  models of delivery the last value offered on subscribing is an input; LastValues ties it to the
  stream, for one requester.
- DeliveryInOrder.RunOrder: for runs in which ids do not wrap within one connection; after the wrap
  the pending acks are not sorted.
- StreamBroker: the subscriptions of all requesters are in one built-in map, as the two maps of a
  requester in Subscription.dfy are; responders' own sids, and the order of maps that are only
  iterated to send, are not modelled. A freed list is not taken apart.
- broker_node_free on a link's node: it walks a map while removing from it.
- QueryTrees: names are not empty and have no slash; the code does not check the names that clients
  give to data nodes.
- Waiting.AppearsServed: the links' directories hold links only, and no other node does; deleting nodes is
  not modelled beyond the freeing of their streams.
- Permission trees and virtual trees are values; that setting a list works in place is not modelled.
- Escape, Permission, Query and Url work on character sequences without the final zero; reading before
  or behind the text is excluded by what the methods require, and named there. An address that
  starts with a colon and has fewer than 254 characters is the only one behind which the parser reads.
- NodeTree and Registry.BaseLen: a path that ends within the first character of a link's name, where the
  code searches behind its end, has no length here.
- Vec.Vector.EraseRange: moves exactly the elements behind the range; the code's count is larger and
  reads behind the contents. Capacities beyond 2^31 and vector_erase, which refuses the last
  index, are not modelled.
- HashMap.Map.Set: the load factor is compared exactly; the code compares floats. Other initial
  capacities and load factors than the defaults are not modelled.
- The data nodes' files, QoS storage, tokens, upstream links, logging and the asynchronous task queue.
