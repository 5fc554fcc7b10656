# QUSB, verified

A Dafny model of QUSB, which lends a USB device to a remote host over a byte stream. The borrower has
a virtual host controller that produces request blocks (URBs); the lender runs them on the real
device and sends the results back.

The project follows a URB through the system:

- `KeyGroups` and `ThreeKeyIndex` (`ThreeKeyMap.dfy`): the reference-counted index with three kinds
  of keys. The class keeps three maps into one vector and removes values by swap-remove;
  it is proved against values with disjoint groups of keys.
- `Demultiplexer`: the event loop that sends each work item to the port it belongs to, on top of that
  index. Enumeration, routing by handle and routing by address, over whole runs.
- `BorrowHandlers` and `LendHandlers`: the handlers of both peers, which append frames to buffers and
  update shared maps and token tables, each proved to be a step of the protocol.
- `Protocol` and `ProtocolRuns`: both peers, their queues and the two streams between them as one
  system. Exactly-once giveback, cancels, absence of deadlock.
- `CancelTokens`: the tokens of running transfers and their recycling.
- `Wire`, `Frames`, `FrameReader` (`Reader.dfy`), `Carried`: alignment, headers, payload layout, the
  incremental reader, and what the frames of a byte stream mean to the protocol.
- `SendLoops` and `Pipe`: the batching send loops, and delivery from one peer's handlers to the other's.
- `Composed`: all of this as one machine on bytes, which runs as the protocol says.
- `Pools`: the block allocator and the best-fit transfer cache of the lender.
- `DeviceList`: the list of devices a lender offers.

`dafny verify dfyconfig.toml` checks everything.

Integers are unbounded; the 8-, 16- and 32-bit fields of the wire are types of their own, and
truncating casts are written out, those of request lengths, packet counts and intervals included.
Clocks, the network, the device and the host controller are arbitrary: events come in any order, reads
deliver any non-empty part of what is there, transfers complete in any order with any result.

Where code and documentation or intent disagree, the model follows the code, and a lemma says exactly
when the code does what was meant:

- A header can announce 65535 bytes of transfer, but a frame is readable only up to 65528 bytes in
  all (`Frames.OutgoingRequestLimit`, `FrameReader.PrefixRoundTrip`).
- The borrower casts buffer length and packet count of a request to 16 bits but slices by the full
  values: beyond 65535 an incoming request gets the wrong room and an outgoing one, or one with
  too many packets, slices out of range (`Frames.RequestPayloadRoundTrip`, `Frames.SlicesInRangeIff`,
  `Frames.WideRequestFails`).
- A stream that ends inside a frame looks like a clean close (`FrameReader.PartialFrameCloses`).
- The completion of an isochronous transfer sends back the whole buffer, whose length is the padded
  one (`Frames.IsoReplyReportsPaddedLength`).
- An overwriting insert in the index returns the value just inserted and leaves the key dangling
  (`ThreeKeyIndex.ThreeKeyMap.InsertByKey1`).
- `unlink_all_but_key1` drops links without lowering the count, so such a value is never freed, even
  when its last key is removed (`KeyGroups.UnpaidValueIsNeverGivenUp`).
- A port keeps its sender when its device disconnects, so borrowing on that port again trips the
  demultiplexer's assertion (`Demultiplexer.PortRegistersOnce`).
- The demultiplexer accepts a URB whose handle is still linked and may then send its cancel elsewhere
  (`Demultiplexer.ReusedHandle`, `Demultiplexer.ReusedHandleMisroutesCancel`).
- The borrower accepts a request under an outstanding handle; then one of the two replies makes it
  panic (`ProtocolRuns.AssignKeepsInverse`, `ProtocolRuns.DuplicateHandlePanics`).
- A device with 255 interfaces cannot be listed, although their number fits its field
  (`DeviceList.SendableLimit`).

## Model

| member | source | states |
|---|---|---|
| KeyGroups.InsertGivesOwnGroup | crates/qusb/src/utils.rs:562-569 | a fresh key gets a group of its own with the inserted value, and every other key keeps its group |
| KeyGroups.LinkJoinsGroup | crates/qusb/src/utils.rs:495-512 | a linked key joins the existing key's group; exactly that group grows by exactly that key |
| KeyGroups.RemoveTakesOnlyThatKey | crates/qusb/src/utils.rs:406-418 | removing a key changes no other key's lookup, and returns the value exactly when the key held it alone |
| KeyGroups.IsolateLeavesOneKey | crates/qusb/src/utils.rs:237-247 | unlinking all but a key drops exactly the rest of its group; the dropped links stay with the value as debt |
| KeyGroups.RunKeepsWellFormed | crates/qusb/src/utils.rs:186-482 | any run of operations whose inserts use fresh keys keeps the groups a partition of the keys |
| KeyGroups.KeyKeepsValueAndDebt | crates/qusb/src/utils.rs:237-247 | over any run a key that stays keeps its value, and the debt of its group only grows |
| KeyGroups.UnpaidValueIsNeverGivenUp | crates/qusb/src/utils.rs:217-247 | however the keys of a value come and go over a run, it stays the value of exactly those keys; once a link was dropped, no removal, not even of its last key, gives it up |
| KeyGroups.GivenUpExactly | crates/qusb/src/utils.rs:358-367 | removing a key gives its value up if and only if it was the last key and no link was dropped |
| KeyGroups.IsolateLeavesUnpaid | crates/qusb/src/utils.rs:237-247 | unlinking all but a key leaves one dropped link for every other key of the group |
| ThreeKeyIndex.RepresentsWellFormed | crates/qusb/src/utils.rs:178-184 | whatever the maps and the vector store, its groups are a partition of the keys |
| ThreeKeyIndex.InsertRepresents | crates/qusb/src/utils.rs:562-569 | pushing a slot and pointing a fresh key at it stores the groups with the key inserted |
| ThreeKeyIndex.LinkRepresents | crates/qusb/src/utils.rs:495-512 | pointing a new key at an existing key's slot and raising its count stores the linked groups |
| ThreeKeyIndex.CountTellsHoldsAlone | crates/qusb/src/utils.rs:358-367 | a linked slot's count is never zero, so lowering it never underflows, and it is one exactly when the key holds the value alone |
| ThreeKeyIndex.UnhookRepresents | crates/qusb/src/utils.rs:571-580 | dropping a key and lowering its slot's count stores the groups without that key |
| ThreeKeyIndex.SwapRemoveRepresents | crates/qusb/src/utils.rs:217-235 | taking an unlinked slot out by swap-remove and renumbering the links to the last slot stores the same groups as before |
| ThreeKeyIndex.IsolateRepresents | crates/qusb/src/utils.rs:237-247 | retaining one key of a slot without lowering the count stores the isolated groups, debt included |
| ThreeKeyIndex.StoredInBounds | crates/qusb/src/utils.rs:524-531 | every stored index of each of the three maps is in bounds |
| ThreeKeyIndex.LinkKeyToKey | crates/qusb/src/utils.rs:495-512 | the two-map link with its three outcomes: which maps and counts change, and when |
| ThreeKeyIndex.InsertByKey | crates/qusb/src/utils.rs:562-569 | fresh key: a new slot with count one; existing key: the pushed slot is popped, the new value comes back and the key is left pointing past the end |
| ThreeKeyIndex.RemoveByKey | crates/qusb/src/utils.rs:571-580 | the key leaves its map and its slot's count goes down by one; the slot index and the new count come back |
| ThreeKeyIndex.SwapRemove | crates/qusb/src/utils.rs:217-235 | slot vector and all three maps after a swap-remove: the last slot moves to the hole and every link to it follows |
| ThreeKeyIndex.ThreeKeyMap.constructor | crates/qusb/src/utils.rs:187-194 | the empty index stores no groups |
| ThreeKeyIndex.ThreeKeyMap.GetByKey1 | crates/qusb/src/utils.rs:369-378 | looks up the value of the key's group |
| ThreeKeyIndex.ThreeKeyMap.GetByKey2 | crates/qusb/src/utils.rs:420-429 | looks up the value of the key's group |
| ThreeKeyIndex.ThreeKeyMap.GetByKey3 | crates/qusb/src/utils.rs:471-480 | looks up the value of the key's group |
| ThreeKeyIndex.ThreeKeyMap.InsertByKey1 | crates/qusb/src/utils.rs:338-344 | the index stays valid if and only if the key was fresh; an overwriting insert returns the new value, not the old one |
| ThreeKeyIndex.ThreeKeyMap.LinkKey2ToKey1 | crates/qusb/src/utils.rs:277-289 | is the abstract link, with the same outcome |
| ThreeKeyIndex.ThreeKeyMap.LinkKey3ToKey1 | crates/qusb/src/utils.rs:305-317 | is the abstract link, with the same outcome |
| ThreeKeyIndex.ThreeKeyMap.LinkKey3ToKey2 | crates/qusb/src/utils.rs:319-331 | is the abstract link, with the same outcome |
| ThreeKeyIndex.ThreeKeyMap.RemoveByKey1 | crates/qusb/src/utils.rs:358-367 | is the abstract remove; the slot is freed and the value returned exactly when nothing else keeps it |
| ThreeKeyIndex.ThreeKeyMap.RemoveByKey2 | crates/qusb/src/utils.rs:406-418 | is the abstract remove; the slot is freed and the value returned exactly when nothing else keeps it |
| ThreeKeyIndex.ThreeKeyMap.RemoveByKey3 | crates/qusb/src/utils.rs:457-469 | is the abstract remove; the slot is freed and the value returned exactly when nothing else keeps it |
| ThreeKeyIndex.ThreeKeyMap.UnlinkAllButKey1 | crates/qusb/src/utils.rs:237-247 | is the abstract isolation of the key |
| Demultiplexer.StepKeepsInv | crates/qusb/src/stub.rs:142-228 | every event keeps: keys partitioned among ports, at most one address per port, no port queued twice, no queued port with an address |
| Demultiplexer.RunKeepsInv | crates/qusb/src/stub.rs:142-228 | so does every run that trips no assertion |
| Demultiplexer.RoutesAreClear | crates/qusb/src/stub.rs:162-212 | a key leads to one port, to whose sender its work goes; no two addresses lead to the same port, none to a queued one |
| Demultiplexer.RouteEndsOnlyThen | crates/qusb/src/stub.rs:142-218 | a route ends at a step if and only if its handle is cancelled or given back, its port newly enters the queue, or it is the route of address 0 and a SET_ADDRESS is taken; the port keeps its sender |
| Demultiplexer.RouteSurvivesRun | crates/qusb/src/stub.rs:142-218 | over any run without such an event the route stays |
| Demultiplexer.UrbGoesWhereHandleLeads | crates/qusb/src/stub.rs:173-213 | a URB under a fresh handle goes to the sender of the port its handle leads to afterwards, in all three arms |
| Demultiplexer.CancelFollowsUrb | crates/qusb/src/stub.rs:173-218 | a cancel goes to the sender that got the URB, over any run in which the handle was not given back or cancelled and its port did not newly enter the queue |
| Demultiplexer.ReusedHandle | crates/qusb/src/stub.rs:204-218 | a URB whose handle is still linked is sent by address, and its cancel follows it if and only if the old link leads to the same sender |
| Demultiplexer.ReusedHandleMisroutesCancel | crates/qusb/src/stub.rs:204-218 | a concrete run from the start after which such a cancel goes to another port than its URB |
| Demultiplexer.SetAddressAssigns | crates/qusb/src/stub.rs:174-193 | SET_ADDRESS gives the port at the front of the queue its address if and only if the address is 0 or no key has it |
| Demultiplexer.AddressedUrbsReachPort | crates/qusb/src/stub.rs:204-212 | once an address leads to a port, every URB routed by that address reaches that port's sender until the route ends |
| Demultiplexer.StepIsFifo | crates/qusb/src/stub.rs:162-184 | a step appends to the queue exactly the port that enters it and takes exactly the front one that is served |
| Demultiplexer.EnumerationIsFifo | crates/qusb/src/stub.rs:162-184 | over any run, ports served followed by ports waiting are the ports waiting before followed by the ports that entered, in order |
| Demultiplexer.PanicsOnlyOnMisuse | crates/qusb/src/stub.rs:173-232 | with resets of registered ports only, an assertion trips if and only if the event is one the assertions forbid: a linked handle on a port's default address, an address out of range or unknown, a registered port |
| Demultiplexer.QueuedStayRegistered | crates/qusb/src/stub.rs:162-228 | queued ports stay registered as long as resets are reported for registered ports |
| Demultiplexer.PortStatusDoes | crates/qusb/src/stub.rs:162-172 | a status is always delivered to its port; the port enters the queue, and loses address and handles, exactly for a reset change that is over, enabled and not queued already |
| Demultiplexer.DefaultAddressUrbDoes | crates/qusb/src/stub.rs:194-203 | while ports wait, a control URB to address 0 other than a SET_ADDRESS to everyone goes to the front port, its handle leads there, and the queue stays; when it trips |
| Demultiplexer.SetAddressUrbDoes | crates/qusb/src/stub.rs:174-193 | while ports wait, a SET_ADDRESS to everyone at address 0 goes to the front port, its handle leads there, the port leaves the queue and the address is linked; when it trips |
| Demultiplexer.AddressUrbDoes | crates/qusb/src/stub.rs:204-212 | every other URB goes where its address leads, a fresh handle then leads there too, and a linked one stays; when it trips |
| Demultiplexer.QueueShrinksIff | crates/qusb/src/stub.rs:173-213 | a surviving URB takes a port off the queue if and only if it is a control URB to address 0, to everyone, a SET_ADDRESS, and ports wait |
| Demultiplexer.OtherEventsDo | crates/qusb/src/stub.rs:142-144 | a cancel is delivered where its handle leads and forgets it, a giveback forgets its handle, a registered port gets its sender |
| Demultiplexer.PortRegistersOnce | crates/qusb/src/stub.rs:230-240 | once a port is registered, registering it again trips the assertion after every run, disconnects included |
| Demultiplexer.SendersStay | crates/qusb/src/stub.rs:230-240 | no sender is ever removed: a registered port keeps its sender over every step |
| Demultiplexer.Demuxer.OnPortStat | crates/qusb/src/stub.rs:162-172 | performs the step: queue, mailer and delivery |
| Demultiplexer.Demuxer.OnProcessUrb | crates/qusb/src/stub.rs:173-213 | performs the step, picking the same arm |
| Demultiplexer.Demuxer.OnSetAddressUrb | crates/qusb/src/stub.rs:174-193 | performs the SET_ADDRESS arm: dequeue, drop address 0, link address and handle |
| Demultiplexer.Demuxer.OnCancelUrb | crates/qusb/src/stub.rs:214-218 | performs the step: the delivery is looked up before the handle is removed |
| Demultiplexer.Demuxer.OnGiveback | crates/qusb/src/stub.rs:142-144 | performs the step: the handle is removed |
| Demultiplexer.Demuxer.OnRegistered | crates/qusb/src/stub.rs:230-234 | performs the step: a new port gets its sender, a known one trips the assertion |
| Wire.MaskIsAlign8 | crates/qusb-proto/src/lib.rs:72-74 | the bit-mask alignment to 8 of a 64-bit word is rounding up to a multiple of 8, as long as that fits the word |
| Wire.AndMask | crates/qusb-proto/src/lib.rs:72-74 | the bitwise and with a mask keeps exactly the bits the mask has |
| Wire.Align8IsLeast | crates/qusb-proto/src/lib.rs:72-74 | the aligned length is the least multiple of 8 not below the length, and commutes with adding 8 |
| Wire.Padding | crates/qusb-proto/src/msg.rs:657-662 | the padding is cut from a seven-byte array and completes the transfer to its aligned length |
| Wire.HeaderRoundTrip | crates/qusb-proto/src/msg.rs:543-556 | a header is read back from its bytes, whatever follows |
| Wire.HeaderLayout | crates/qusb-proto/src/msg.rs:523-556 | the eight bytes of a header by position: word count, command and status codes, number, low bytes first |
| Wire.HeaderIsCanonical | crates/qusb-proto/src/msg.rs:543-556 | a header that decodes encodes to the bytes it came from |
| Wire.UrbHeaderRoundTrip | crates/qusb-proto/src/msg.rs:642-654 | a URB header is read back from its bytes, whatever follows |
| Wire.UrbHeaderLayout | crates/qusb-proto/src/msg.rs:642-654 | the 24 bytes of a URB header by position, kind and status codes included |
| FrameReader.PrefixRoundTrip | crates/qusb-proto/src/msg.rs:848-866 | the length prefix gives back the frame's length if and only if it is a whole number of words of at most 65528 bytes |
| FrameReader.MissingBytes | crates/qusb-proto/src/msg.rs:852-866 | short of a frame exactly the missing bytes are asked for, short of a prefix those of a header; prefixes of 0 or above 8191 words overflow |
| FrameReader.DecodeConcat | crates/qusb-proto/src/lib.rs:232-252 | frames followed by anything are read back in order and then the rest is read |
| FrameReader.DecodeInvertsConcat | crates/qusb-proto/src/lib.rs:232-252 | any list of frames is read back from its concatenation, in order, and then the stream closes |
| FrameReader.PartialFrameCloses | crates/qusb-proto/src/lib.rs:237-241 | a proper part of a frame yields no frame and looks like a clean close |
| FrameReader.CutStreamYieldsCompleteFrames | crates/qusb-proto/src/lib.rs:232-252 | a stream cut anywhere yields exactly the frames complete before the cut |
| FrameReader.DecodedAreFrames | crates/qusb-proto/src/lib.rs:232-252 | whatever the reader returns are frames, and their concatenation is the front of the stream |
| FrameReader.Ring.FillWithReader | crates/qusb-proto/src/data.rs:528-541 | a read into positive spare room appends the front of the stream, and nothing exactly at its end |
| FrameReader.Ring.FillUntil | crates/qusb-proto/src/data.rs:570-590 | fills the buffer to the wanted length if and only if the stream has that many bytes; every read has room and the loop terminates |
| FrameReader.Ring.ClaimDst | crates/qusb-proto/src/data.rs:435-444 | cuts the first frame off the buffer, or reports how many bytes are missing, or an illegible header |
| FrameReader.RecvFrame | crates/qusb-proto/src/lib.rs:232-252 | returns the next frame of the stream, or how it ends, independent of how reads cut the bytes, in at most two attempts |
| FrameReader.ReceiveAll | crates/qusb-lend/src/lib.rs:600-625 | repeated receiving returns exactly the decoding of the whole stream |
| Frames.HeaderFrameParses | crates/qusb-proto/src/lib.rs:254-306 | header-only frames parse to the unlink or port reset they were written for |
| Frames.HeaderDecides | crates/qusb-proto/src/lib.rs:254-306 | what each command and status byte makes of a frame: request, unlink, reset, reply, the three aborting errors, or not implemented |
| Frames.UrbFrameParses | crates/qusb-proto/src/lib.rs:254-306 | a URB frame of whole words is readable if and only if it has at most 65528 bytes, and parses to its number, header and data |
| Frames.SlicesInRangeIff | crates/qusb/src/operator.rs:276-351 | the slices of the reserved room are in range if and only if the buffer length of an outgoing request and the packet count fit 16 bits |
| Frames.RequestParses | crates/qusb/src/operator.rs:276-391 | the lender reads the number, header and payload that process_urb laid out, if and only if the request has at most 65528 bytes |
| Frames.RequestHeaderArrives | crates/qusb/src/operator.rs:280-294 | the frame the lender parses has the request's own endpoint, kind and setup packet, its length, count and interval modulo 2^16, its flags without the DMA mapping flag, and is pending |
| Frames.RequestPayloadRoundTrip | crates/qusb/src/operator.rs:1035-1137 | interrupt, bulk and isochronous requests are encoded and give the device exactly the bytes or room asked for, and the descriptors, if and only if buffer length and packet count fit 16 bits |
| Frames.WideRequestFails | crates/qusb/src/operator.rs:276-351 | a bulk request for 65544 bytes: incoming it gets room for 8, outgoing its slice is out of range |
| Frames.DmaFlagCleared | crates/qusb/src/operator.rs:280-296 | a request's header has the host's flags without the DMA mapping flag and otherwise unchanged |
| Frames.OutgoingRequestLimit | crates/qusb/src/operator.rs:300-303 | an outgoing request without packets is encoded and readable if and only if it carries at most 65496 bytes |
| Frames.CtrlRequestRoundTrip | crates/qusb/src/operator.rs:957-979 | an outgoing request is encoded and taken if and only if its length fits 16 bits and the setup packet announces it up to alignment, and then the device gets setup packet and data; an incoming one gets the room asked for if and only if that fits a scratch block |
| Frames.ReplyRoundTrip | crates/qusb/src/operator.rs:515-534 | for results of any length: a reply is readable if and only if it has at most 65528 bytes, and then the borrower gives back exactly the received bytes, descriptors, kind and status (for outgoing transfers the length in 16 bits) |
| Frames.ReplyHeaderArrives | crates/qusb/src/operator.rs:1464-1495 | the reply the borrower parses has the result's endpoint, kind, status, interval and counts, and its length modulo 2^16 |
| Frames.ReplySlices | crates/qusb/src/operator.rs:515-534 | splitting the reply data at the padded length and truncating recovers transfer and descriptors |
| Frames.UrbReplyPanicsIff | crates/qusb/src/operator.rs:521-529 | splitting off a reply's transfer panics if and only if it comes from the device and is not all there |
| Frames.IsoReplyReportsPaddedLength | crates/qusb/src/operator.rs:1186-1192 | an isochronous reply reports the requested length if and only if that is a multiple of 8 and fits 16 bits |
| SendLoops.StepKeepsInv | crates/qusb-borrow/src/lib.rs:255-303 | every event keeps: Solicit has an empty buffer, Timer a non-empty one, bytes are in flight exactly in Flush; appended bytes go to the end, written ones stay |
| SendLoops.NothingStranded | crates/qusb-borrow/src/lib.rs:235-254 | while anything is unwritten the loop waits for its timer or its writer |
| SendLoops.RunConserves | crates/qusb-lend/src/lib.rs:363-405 | over any run, written, in-flight and buffered bytes together are everything appended, in order |
| SendLoops.AddressIsSetInBetween | crates/qusb-borrow/src/lib.rs:235-300 | over any run a SET_ADDRESS is under way exactly from its start to its end, whatever is sent meanwhile |
| SendLoops.StepApproaches | crates/qusb-borrow/src/lib.rs:272-292 | a timer or writer event brings a byte one turn closer to being written, any other event leaves its distance |
| SendLoops.WrittenAfterDistance | crates/qusb-borrow/src/lib.rs:255-303 | a byte is written after exactly its distance in timer or writer events: at most two, or three if it was appended during a flush |
| SendLoops.SendLoop.OnWork | crates/qusb-borrow/src/lib.rs:255-271 | is the Work step; the timer is armed exactly on leaving Solicit |
| SendLoops.SendLoop.OnFlushBuf | crates/qusb-borrow/src/lib.rs:272-283 | is the FlushBuf step; the writer it takes is always there |
| SendLoops.SendLoop.OnFlushComplete | crates/qusb-borrow/src/lib.rs:284-292 | is the FlushComplete step; the writer comes back |
| SendLoops.SendLoop.DoLoop | crates/qusb-borrow/src/lib.rs:233-303 | the loop over any enabled events is the run of the state machine |
| Pipe.DeliveredInOrder | crates/qusb-borrow/src/lib.rs:255-303 | at any point of any run the peer has decoded a prefix of the frames appended, in order and without corruption; all of them once the loop is idle |
| Pipe.DeliveredAfterThreeTurns | crates/qusb-borrow/src/lib.rs:272-292 | three timer or writer events later every frame appended before them has been decoded by the peer |
| Pipe.DeliveredAsMeant | crates/qusb-borrow/src/lib.rs:255-303 | at any point of any run the peer has received exactly the first of the requests (or replies) the appended bytes encode, in order; all of them once the loop is idle |
| Pipe.CutStreamCarriesFirst | crates/qusb-proto/src/lib.rs:232-252 | of what a handler's buffer encodes, any front part of its bytes carries exactly the first items |
| CancelTokens.RegisterKeepsClean | crates/qusb/src/operator.rs:832-844 | a registered token is uncancelled and belongs to nobody else; active and cached tokens stay distinct |
| CancelTokens.CancelKeepsClean | crates/qusb/src/operator.rs:848-852 | a cancelled token is in neither table afterwards |
| CancelTokens.DeregisterKeepsClean | crates/qusb/src/operator.rs:1412-1417 | a token returns to the cache uncancelled and only once |
| CancelTokens.RegisterKeepsAccounted | crates/qusb/src/operator.rs:832-844 | registering loses no token: each made so far is in use, spare or cancelled |
| CancelTokens.DeregisterKeepsAccounted | crates/qusb/src/operator.rs:1412-1417 | deregistering loses no token: it goes to the cache |
| CancelTokens.TokenTables.RegisterCancelToken | crates/qusb/src/operator.rs:832-844 | takes the last cached token, or a new one only when none is cached, uncancelled, and makes it active under the number |
| CancelTokens.TokenTables.CancelUrb | crates/qusb/src/operator.rs:848-852 | cancels and forgets the active token, if there is one |
| CancelTokens.TokenTables.DeregisterToken | crates/qusb/src/operator.rs:1412-1417 | caches the active token; the debug assertion that it is not cancelled holds |
| Protocol.StepKeepsInv | crates/qusb/src/operator.rs:548-554 | no step panics: the lookups of a reply succeed; and every step keeps the maps inverse, each outstanding job in exactly one place, order, and clean tokens |
| Protocol.MovesConserve | crates/qusb-lend/src/lib.rs:482-602 | receiving, completing, replying, flushing and cancelling move outstanding jobs from place to place and lose or add none |
| Protocol.ReturnConserves | crates/qusb/src/operator.rs:501-513 | a returned reply takes exactly its job out of what is outstanding |
| Protocol.SubmitConserves | crates/qusb/src/operator.rs:263-274 | a submitted request adds exactly its job |
| Protocol.PlacedIsOutstanding | crates/qusb-lend/src/lib.rs:482-602 | a job found anywhere is outstanding under its own number and is in no second place |
| Protocol.OrderedTail | crates/qusb-lend/src/lib.rs:482-584 | what arrives first is the next request by number, or an unlink of a request that arrived before |
| Protocol.ReplyKeepsTokens | crates/qusb/src/operator.rs:1412-1417 | a completed transfer's token goes back to the cache only when no running transfer holds it |
| Protocol.StartKeepsHeld | crates/qusb/src/operator.rs:832-844 | a starting transfer gets a token that no running or cached one shares |
| ProtocolRuns.RunNeverPanics | crates/qusb/src/operator.rs:501-554 | no interleaving of any actions makes the borrower panic on a reply |
| ProtocolRuns.OutstandingXorReturned | crates/qusb/src/operator.rs:263-274 | on every run every request is either outstanding and in exactly one place, or was given back under its own handle and is nowhere |
| ProtocolRuns.ReturnsOnce | crates/qusb/src/operator.rs:501-513 | a reply gives back a handle not given back before, the one it was submitted under; no other step gives back |
| ProtocolRuns.DrainedReturnedAll | crates/qusb/src/operator.rs:548-554 | once nothing is under way every submitted handle has been given back and both maps are empty |
| ProtocolRuns.AssignKeepsInverse | crates/qusb/src/operator.rs:267-274 | the maps stay inverse if and only if the submitted handle is not outstanding |
| ProtocolRuns.DuplicateHandlePanics | crates/qusb/src/operator.rs:267-274 | when it is, whichever of the two replies comes first is given back and the other one panics |
| ProtocolRuns.StepApproachesDrained | crates/qusb-lend/src/lib.rs:482-602 | without new work every step but an empty flush brings the system closer to drained |
| ProtocolRuns.EveryHandleCanComeBack | crates/qusb-lend/src/lib.rs:482-602 | from every reachable state some run without the host gives every handle back: there is no deadlock |
| ProtocolRuns.UnlinkHitsItsTransfer | crates/qusb/src/operator.rs:848-852 | an unlink arrives after its request, cancels that transfer's token if it runs, and no other running transfer's |
| ProtocolRuns.StartsUncancelled | crates/qusb/src/operator.rs:832-844 | a transfer that starts is not cancelled already, whatever was cancelled before |
| ProtocolRuns.TokensStayClean | crates/qusb/src/operator.rs:1412-1417 | no interleaving of register, cancel and complete caches or shares a cancelled token |
| ProtocolRuns.NoTokenIsLost | crates/qusb/src/operator.rs:1412-1417 | on every run every token ever made is in use, spare or cancelled |
| ProtocolRuns.RepliesInCompletionOrder | crates/qusb-lend/src/lib.rs:585-600 | on every run the replies of one kind are sent in the order in which its jobs completed |
| ProtocolRuns.GivenBackInReplyOrder | crates/qusb-borrow/src/lib.rs:363-375 | on every run jobs are given back in the order in which their replies were sent |
| ProtocolRuns.CancelsChangeNoReply | crates/qusb/src/operator.rs:243-261 | every run has a twin without cancels that ends with the same requests outstanding, the same requests' replies under way and the same handles given back; status and bytes of a reply are not part of the protocol |
| ProtocolRuns.WithoutCancelsHasNone | crates/qusb/src/operator.rs:243-261 | in that twin run no handle is cancelled and no unlink arrives |
| Carried.EncodesJoin | crates/qusb-proto/src/lib.rs:232-252 | byte streams that follow one another carry what they carry one after the other |
| Carried.RequestCarries | crates/qusb-lend/src/lib.rs:482-577 | the lender runs the job the borrower numbered if and only if the request is encoded in at most 65528 bytes |
| Carried.ReplyCarries | crates/qusb-borrow/src/lib.rs:363-375 | the borrower takes a reply for the job it answers if and only if it has at most 65528 bytes |
| Carried.HeaderCarries | crates/qusb-lend/src/lib.rs:578-584 | unlinks, resets and reset replies arrive as what they are |
| BorrowHandlers.BorrowSendHandler.HandleWork | crates/qusb-borrow/src/lib.rs:111-136 | unless a slice is out of range, every work item makes of the borrower what the protocol says and appends exactly its one frame or none; SET_ADDRESS (request 0, code 5) to address 0 sends nothing and sets the local address |
| BorrowHandlers.BorrowSendHandler.Number | crates/qusb/src/operator.rs:266-274 | takes the next number, which no outstanding request has, and records it in both maps |
| BorrowHandlers.BorrowSendHandler.ProcessUrb | crates/qusb/src/operator.rs:263-395 | numbers the request, records it in both maps and appends its frame, if and only if its slices are in range; the buffer stays readable if the request is |
| BorrowHandlers.BorrowSendHandler.CancelUrb | crates/qusb/src/operator.rs:243-261 | appends an unlink of the handle's number if it is outstanding, otherwise nothing |
| BorrowHandlers.BorrowSendHandler.OnPortStat | crates/qusb/src/operator.rs:167-223 | sends a reset exactly on a rising edge of the reset bit of a connected port that has neither just (dis)connected nor lost power; the local address after it, over the status bits |
| BorrowHandlers.ResetsAreRisingEdges | crates/qusb/src/operator.rs:167-223 | over any run of port statuses exactly one reset is sent per rising edge of the reset bit, numbered in order, and nothing else |
| BorrowHandlers.BorrowSendHandler.SendReset | crates/qusb/src/operator.rs:187-210 | numbers the reset like a request and appends its frame; the fresh-number assertion holds |
| BorrowHandlers.BorrowSendHandler.FlushBuf | crates/qusb/src/operator.rs:400-402 | hands over exactly the buffered bytes, which carry exactly the unsent frames |
| BorrowHandlers.BorrowRecvHandler.UrbReply | crates/qusb/src/operator.rs:501-546 | takes both map entries out, returns the handle and the sliced payload |
| BorrowHandlers.BorrowRecvHandler.DeviceReset | crates/qusb/src/operator.rs:548-558 | takes both map entries out |
| LendHandlers.LendRecvHandler.OnFrame | crates/qusb-lend/src/lib.rs:510-584 | is the protocol's receive step unless the payload makes the lender panic; a transfer starts exactly for a sliceable request that is no SET_CONFIGURATION, SET_INTERFACE or endpoint CLEAR_FEATURE, under the token a later cancel hits |
| LendHandlers.RequestReachesDevice | crates/qusb/src/operator.rs:276-391 | from the host's request through frame, parser and slicing the device gets exactly the bytes or room asked for, with descriptors or setup packet, if and only if length and count fit, the frame is readable and the setup packet announces the length |
| LendHandlers.SlicedPanicsIff | crates/qusb/src/operator.rs:957-979 | on any payload, slicing panics if and only if the lengths do not add up for an isochronous request, are not as announced for an outgoing control request, or exceed a scratch block for an incoming one |
| LendHandlers.SlicedAsAsked | crates/qusb/src/operator.rs:946-1240 | for every kind the slicing of the payload gives exactly that, if and only if length, count and announcement allow |
| LendHandlers.LendRecvHandler.NewTransfer | crates/qusb/src/operator.rs:946-1260 | registers an uncancelled token first, then slices the payload and joins the set of its kind |
| LendHandlers.LendRecvHandler.OnCompleted | crates/qusb-lend/src/lib.rs:585-600 | is the protocol's completion step: the job leaves its set and joins its queue |
| LendHandlers.LendSendHandler.IsoCompleted | crates/qusb/src/operator.rs:1429-1503 | is the protocol's reply step with exactly the encoded reply appended, or only the token given up on a fatal error |
| LendHandlers.LendSendHandler.IntCompleted | crates/qusb/src/operator.rs:1505-1575 | is the protocol's reply step with exactly the encoded reply appended, or only the token given up on a fatal error |
| LendHandlers.LendSendHandler.CtrlCompleted | crates/qusb/src/operator.rs:1577-1646 | is the protocol's reply step with exactly the encoded reply appended, or only the token given up on a fatal error |
| LendHandlers.LendSendHandler.BulkCompleted | crates/qusb/src/operator.rs:1648-1717 | is the protocol's reply step with exactly the encoded reply appended, or only the token given up on a fatal error |
| LendHandlers.LendSendHandler.DeviceResetted | crates/qusb/src/operator.rs:1719-1745 | is the protocol's reply step for a reset, which holds no token |
| LendHandlers.LendSendHandler.FlushBuf | crates/qusb/src/operator.rs:1425-1427 | hands over exactly the buffered bytes, which carry exactly the unsent replies |
| Composed.FlushConveys | crates/qusb-borrow/src/lib.rs:272-283 | a flush makes what the buffer carried part of what is on its way |
| Composed.ReadConveys | crates/qusb-proto/src/lib.rs:232-252 | a reader with something to report has exactly the first frame on its way, and what follows is the rest |
| Composed.WorkBytesCarry | crates/qusb/src/operator.rs:167-395 | the bytes of a work item are one frame the lender takes for what the work item means, or nothing |
| Composed.SliceableIff | crates/qusb/src/operator.rs:946-1137 | the lender can slice every request in range but control requests whose setup packet or size says otherwise |
| Composed.EncodedReplyIsTaken | crates/qusb/src/operator.rs:1429-1745 | the replies the lender encodes are read and sliced by the borrower if and only if they have at most 65528 bytes |
| Composed.StepSimulates | crates/qusb-borrow/src/lib.rs:233-303 | every step of handlers, loops, streams, readers and dispatch goes through and is a step of the protocol or none |
| Composed.MachineRunsProtocol | crates/qusb-borrow/src/lib.rs:233-303 | every run of the whole byte-level machine goes through and is a run of the protocol, with the unread bytes carrying its frames in transit |
| Composed.EverySubmissionReturns | crates/qusb/src/operator.rs:263-274 | on every run of the whole machine nothing breaks, every submitted handle is outstanding or was given back under its own number, and all are back when all is silent |
| Pools.BytesAllocator.Reserve | crates/qusb/src/utils.rs:37-72 | exactly the wanted bytes, overlapping no piece still held, from the first block with enough spare bytes or that nobody holds, else from a new block in front of the queue in its original order |
| Pools.FirstFitIff | crates/qusb/src/utils.rs:45-60 | a block is found exactly when one has enough spare bytes or is held by nobody |
| Pools.BytesAllocator.RotateToFit | crates/qusb/src/utils.rs:45-60 | blocks that cannot give enough go to the end, at most once around |
| Pools.BytesAllocator.Drop | crates/qusb/src/utils.rs:37-72 | letting a piece go keeps the rest separate |
| Pools.SplitKeepsSeparate | crates/qusb/src/utils.rs:45-53 | splitting from spare or reclaimed bytes overlaps nothing held, reclaimed bytes included |
| Pools.FirstFit | crates/qusb/src/utils.rs:45-60 | the least index whose block fits, or the length of the queue |
| Pools.BigTransfers.Insert | crates/qusb/src/operator.rs:746-767 | what is stored afterwards is what was stored and the transfer; no entry is empty |
| Pools.BigTransfers.Remove | crates/qusb/src/operator.rs:769-795 | finds a stored transfer with room, if there is one (as far as 16 bits hold capacities), and while all capacities fit 16 bits one with the least sufficient room |
| Pools.BestFitIsLeast | crates/qusb/src/operator.rs:769-795 | no stored transfer with room has less of it than the one found |
| Pools.NoneFits | crates/qusb/src/operator.rs:769-795 | nothing is found exactly when no stored transfer has room, as 16 bits hold its capacity |
| Pools.InsertCounts | crates/qusb/src/operator.rs:746-767 | inserting adds exactly one of exactly that transfer |
| Pools.PopCounts | crates/qusb/src/operator.rs:769-795 | removing takes exactly one of exactly the returned transfer |
| Pools.CacheConserves | crates/qusb/src/operator.rs:745-796 | no transfer is lost or duplicated by any sequence of insertions and removals |
| DeviceList.SendableLimit | crates/qusb/src/lib.rs:570-618 | a device can be sent if and only if it has at most 254 interfaces |
| DeviceList.DeviceLayout | crates/qusb-proto/src/msg.rs:500-521 | speed, counts, padding and length of a device by position |
| DeviceList.DeviceRoundTrip | crates/qusb-proto/src/msg.rs:472-493 | the receiver reads back header, speed and every interface of a sent device |
| DeviceList.ListRoundTrip | crates/qusb/src/operator.rs:2028-2035 | any list of items is read back from its concatenation, in order, and bytes that start no item are left |
| DeviceList.DevicesRoundTrip | crates/qusb/src/operator.rs:2028-2035 | iterating over the bytes of any list of devices that can be sent yields exactly these devices, in order, with header, speed and every interface |
| DeviceList.ReadItemsAreItems | crates/qusb-proto/src/data.rs:47-54 | whatever is read are whole items and nothing is skipped |
| DeviceList.IterDst.Next | crates/qusb-proto/src/data.rs:47-54 | takes exactly the first item off the front, at least a header, or ends and leaves the bytes |
| DeviceList.IterDst.Collect | crates/qusb-proto/src/data.rs:47-54 | iterating to the end returns exactly the items of the buffer |

## Left out

- `ThreeKeyIndex`: the remaining link operations and inserts by the second and third key, which are the same bodies over other maps.
- `Demultiplexer.Demuxer`: addresses are natural numbers and 0 stands for unassigned; disconnects do not touch the mailer and are not events; work that cannot be delivered is dropped by the channel, which is not part of this model.
- `Demultiplexer.PanicsOnlyOnMisuse`: `Address::new` is taken to accept 0 to 127; the type is defined outside the repository.
- `FrameReader.Ring.ClaimDst`: a length prefix of 0 or above 8191 is an arithmetic overflow, which ends the reception here; unchecked builds would wrap around.
- `FrameReader.Ring.FillWithReader`: I/O errors of the stream are not modelled; the capacity the allocator grows to is exactly what was asked for.
- `Wire.MaskIsAlign8`: for other alignments than 8, which the frames do not use, the mask is not analysed.
- `Frames`: setup packets and isochronous packet descriptors are eight bytes each and are defined outside the repository; of a setup packet only request and length are read.
- `Frames.ParseFrame`: replies with a status whose arm is unimplemented are a case of their own, without a claim.
- `Frames.RequestPayloadRoundTrip`: the submission to the device and the results it writes into packet descriptors are the environment.
- `Frames.CtrlRequestRoundTrip`: the reply to GET_STATUS, whose first byte the lender overwrites, is not modelled.
- `Composed.EverySubmissionReturns`: the host sends only requests that can be read and sliced, and the lender only replies that can; when that is so is stated separately (`Composed.SliceableIff`, `Composed.EncodedReplyIsTaken`). Events are single steps; the classes are tied to these steps by their contracts.
- `Frames.Request`: what the code does after a slice out of range is undefined and has no model.
- `SendLoops.SendLoop`: a failed write ends the loop and is not modelled; a second SET_ADDRESS while one is under way replaces it.
- `Protocol`: fewer than 2^32 requests, no handle submitted while outstanding (what happens otherwise is stated separately), no error that ends the connection; channels of bounded capacity only delay steps.
- `Protocol.StepKeepsInv`: the cancelling of all tokens when the lender's receive handler is dropped is not a step.
- `BorrowHandlers.BorrowSendHandler.OnPortStat`: the random handle of a reset is a parameter and must not be outstanding, which the code asserts.
- `BorrowHandlers.BorrowSendHandler.ProcessUrb`: the debug assertion on the device address is not modelled, nor is a failing fetch, which ends the connection, nor the giveback that answers SET_ADDRESS.
- `LendHandlers.LendRecvHandler`: the blocking control requests (configuration, interface, stall) only complete, and what they do to the device is not modelled.
- `Pools.BytesAllocator.Reserve`: the byte buffers of the `bytes` crate are blocks with a first spare byte and the set of pieces still held; reclaiming succeeds when the rest is long enough or nobody else holds a piece.
- `Pools.BigTransfers.Remove`: the ordered map's range query is a choice of the least key.
- `DeviceList.Device`: paths, ids and descriptors of a device are opaque bytes; gathering them from the operating system is not modelled.
- The mutable device iterator, the packed URB kind, the slice length of `UrbFrame`, metrics, logging, the command line, QUIC sessions and interface bookkeeping are not modelled.
