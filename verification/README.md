# waylandpp in Dafny

waylandpp is a C++ binding of libwayland.  Its scanner compiles protocol descriptions
into classes whose messages are packed and unpacked by separately written pieces of
code, and its runtime keeps C objects alive through counted C++ handles.  This project
models both and proves what they are for.

`dafny verify dfyconfig.toml` checks everything.

## The parts

- **Protocol compiler** (`Protocol`, `Scanner`, `Wire`, `Dispatch`, `Signatures`,
  `Delivery`, `EndToEnd`).  Generated code is abstract syntax: a stub is a list of
  encoding steps, a dispatcher case a list of decoding steps, each with a semantics.
  The printers are methods with the source's loops; `EndToEnd` runs what they print.
  libwayland's transport is the identity on opcode and arguments, except that it
  assigns ids at new_id positions.
- **Client handles** (`Handles`, `ProxyState`, `ProxyInvariant`, `ProxySteps`,
  `ProxyRuns`, `ProxyTheorems`, `ProxyHistory`, `ProxyFields`, `ProxyQueues`,
  `ProxyDispatch`, `ProxyMixups`, `ProxyOwners`, `ProxyRuntime`).  The state is a heap of
  data records, a table of C objects and queues, and all handles, including those
  inside records and those of running dispatchers.  Each member function is a function
  on it; a run is any interleaving of them with nested dispatches.  `ProxyRuntime` has
  the member functions as imperative code, proved equal to the functions, with the
  libwayland calls' demands as preconditions.
- **Server lifetimes** (`GlobalLifetime`, `GlobalBinding`, `EventLoop`), in the same
  style.
- **Smaller cores**: read intents (`ReadIntent`), the memory of array arguments
  (`ArgumentStorage`), vectors in arrays (`ArrayConversion`), bitfields (`Bitfield`).

libwayland appears as small contracts: the user-data slot, queue inheritance, destroy
listeners, the reader count, 24.8 fixed point.  Uninitialised user data and the outcome
of reads are parameters of the steps.

## Where the code does not do what it promises

The model follows the code.  Each point has a lemma saying exactly when the promise
is kept.

- A server that receives a null object for an argument with an interface dereferences
  null data in `set_events` (src/wayland-server.cpp:681-691), although the protocol may
  allow null: `EndToEnd.RequestArrives`, `NullTypedObjectFails`.
- Copy assignment does not release the handle it overwrites
  (src/wayland-client.cpp:292-311): `OverwriteLeaks`, `CounterCoversHandles`.
- `proxy_release` on a display disconnects it, where include/wayland-client.hpp:343-347
  says the call is ignored: `ReleaseDestroysIffLast`.
- A proxy created through a foreign handle that is on a queue of its own does not
  retain that queue: `CreatedAgreesIffParent`.
- An event may carry a proxy that belongs to another library using the same
  connection.  The dispatcher constructs a standard handle for it
  (src/wayland-client.cpp:151-155), so its user data is overwritten and it is destroyed
  when the dispatch ends, or the other library's data is taken for a record:
  `NoRunFaults`, `DispatchSafeIff`, `StrangerDestroyed`, `StrangerRun`.
- The constructor `proxy_t(wl_proxy*, wrapper_type, event_queue_t)` is public
  (include/wayland-client.hpp:234).  For every wrapper type but one, a second call for
  the same pointer joins the record that is there; for a display it makes another
  record (src/wayland-client.cpp:263-271), and giving up both handles calls
  `wl_display_disconnect` twice: `NoRunFaults`, `RawSafeIff`, `DisconnectedTwice`,
  `DisconnectedTwiceRun`.
- A read that fails has already lowered the reader count, but the intent stays open
  and lowers it again (src/wayland-client.cpp:455-462): `ReadersConserved`,
  `FailedReadCancelsTwice`.
- The generated server constructor takes `(client, id, version)` and passes them on in
  the order id, version to a constructor that expects version, id; `bind_func`
  exchanges them too, which cancels out: `GlobalBinding`.
- Reading an array whose size is not a multiple of the element size reads past its
  end, and vectors of more than 2^32 elements wrap: `SplitIsExact`, `VectorRoundTrip`.
- `fd_event_mask_t` is two bits wide but has constants 4 and 8:
  `FdEventMaskTooNarrow`.
- A display that is destroyed while handles of its event loop exist leaves them with
  freed memory: `DestroyDisplaySafeIff`.
- Strings end at their first NUL, fixed values are rounded to multiples of 1/256 and
  wrap around outside their 32 bits: `CStringRoundTrip`, `FixedRoundTrip`,
  `FixedOutOfRange`.
- An enum on an array argument makes the generator stop or the generated `get` fail:
  `GetFailsIffEnumOnArray`.

## Model

| member | source | states |
|---|---|---|
| Protocol.ParseMessage | scanner/scanner.cpp:942-994 | a message keeps its arguments in order and returns its last new_id argument |
| Protocol.ParseMessages | scanner/scanner.cpp:941-1003 | messages are numbered in document order; destroy_opcode is the number of the last request called "destroy", -1 exactly when there is none |
| Protocol.ParsedIsWellFormed | scanner/scanner.cpp:941-1003 | what the parser builds from well-formed descriptions has the opcode/position agreement the other results start from |
| Protocol.ReturnIsLastNewId | scanner/scanner.cpp:992-994 | what a message returns is its last new_id argument, however many there are |
| Scanner.CallKind | scanner/scanner.cpp:306-317 | a client stub is a plain marshal exactly if no argument is a new_id, a versioned constructor call exactly if the last new_id has no interface, and else constructs exactly the interface of the last new_id; a server stub sends an event |
| Scanner.PrintSignature | scanner/scanner.cpp:791-809 | the loop prints the specified signature of a message |
| Scanner.PrintBody | scanner/scanner.cpp:275-339 | the stub: the kind of call (see CallKind), the opcode, one group of argument expressions per declared argument, or the generator error of a wrongly typed enum |
| Scanner.PrintDispatcher | scanner/scanner.cpp:141-166 | the case: its opcode, and one `get` with its index, type and wrapping class per declared argument |
| Scanner.PrintSwitch | scanner/scanner.cpp:680-702 | the cases of a dispatcher carry the positions of their messages as opcodes |
| Signatures.LettersOfSignature | scanner/scanner.cpp:94-113 | for any since-version of any length and any null marks, skipping digits and `?` leaves exactly the letters of the declared arguments |
| Signatures.TableAlignment | scanner/scanner.cpp:768-809 | the generated types table has one entry per letter if and only if no new_id is untyped, and then entry c belongs to letter c |
| Signatures.KindsRecovered | scanner/scanner.cpp:94-113 | the declared argument kinds can be read back from the letters, position by position |
| Signatures.SignatureRoundTrip | scanner/scanner.cpp:791-809 | since-version, null marks and letters can all be read back from the printed signature, also around untyped new_ids |
| Dispatch.CDispatcher | src/wayland-client.cpp:116-183 | the loop over the signature characters unpacks argument c for the c-th letter that is not skipped, whatever marks and digits surround it, and stops with the first failure |
| Wire.FixedRoundTrip | src/wayland-util.cpp:99-102 | a double survives the 32-bit 24.8 fixed-point format if and only if it is a multiple of 1/256 from -2^23 up to but not 2^23 |
| Wire.FixedIsNearest | src/wayland-util.cpp:99-102 | any other double in range becomes the nearest value the format has, halfway the even one |
| Wire.CStringRoundTrip | src/wayland-util.cpp:104-107 | a string survives being passed as a C string if and only if it contains no NUL |
| Wire.CopyArguments | src/wayland-server.cpp:698-714 | the loop of post_event_array and queue_event_array copies every union in order |
| Delivery.StubMatchesSignature | scanner/scanner.cpp:319-335 | every argument expression of every generated stub has a conversion to argument_t, and the values passed match the letters of the printed signature one for one, also "s", "u", "n" for an untyped new_id |
| Delivery.NoTypeFailure | scanner/scanner.cpp:141-166 | for any message a peer may send, on both sides: each `get` of the generated case asks for the type the dispatcher stored at that index, and the handler arguments are the unpacked ones, unless a server is to build a typed class from a null object |
| Delivery.ReceiveCallsHandler | src/wayland-client.cpp:100-188 | a conforming message calls exactly the handler of its own opcode, or nothing if that handler is not set |
| EndToEnd.RequestArrives | scanner/scanner.cpp:319-339 | client stub, signature, server dispatcher and server switch together call exactly the handler of request k, with the values that survive the wire and a fresh resource of the declared interface at the new_id position; the outcome is determined for all inputs, the null-pointer case included |
| EndToEnd.RequestArrivesIntact | src/wayland-server.cpp:597-679 | the handler is called with the very values that were passed if and only if it is set, no typed object argument is null, strings are NUL-free and fixed values are multiples of 1/256 in range |
| EndToEnd.NullTypedObjectFails | src/wayland-server.cpp:681-691 | a concrete request with an allowed null object argument, which makes the generated server code dereference null data |
| EndToEnd.FixedOutOfRange | src/wayland-util.cpp:99-102 | a concrete request whose fixed argument 2^23 arrives as -2^23 |
| EndToEnd.NewObjectAgrees | scanner/scanner.cpp:314-317 | for a single new_id, the proxy class the client stub constructs, the resource the server handler gets and the id agree |
| EndToEnd.DestroyRequestArrives | scanner/scanner.cpp:960-962 | the recorded destroy opcode, sent without arguments, reaches the server handler of the request called "destroy" |
| EndToEnd.EventArrives | scanner/scanner.cpp:680-697 | server stub, signature, client dispatcher and client switch together call exactly the handler of event k, unless the proxy is unknown or the handler not set; null objects arrive as empty handles |
| EndToEnd.EventArrivesIntact | scanner/scanner.cpp:275-339 | the client handler gets the very values that were sent if and only if it is set and the wire format can represent them |
| EndToEnd.RunRequest | scanner/scanner.cpp:275-339 | the printed stub, the loop over the printed signature and the printed switch, run one after the other, produce the specified outcome |
| EndToEnd.RunEvent | src/wayland-server.cpp:698-714 | the same for events; posting and queueing run the same loop |
| EndToEnd.GetFailsIffEnumOnArray | scanner/scanner.cpp:58-92 | of the enum types the XML could name, exactly an enum on an array makes `get` fail and the stub printer stop |
| EndToEnd.ConstructorMatchesTable | scanner/scanner.cpp:314-317 | the proxy a client stub constructs has the interface the types table names at the new_id position |
| Handles.HoldersAfterWrite | src/wayland-client.cpp:292-326 | how the number of handles on a data record changes when one handle is overwritten |
| Handles.HoldersAfterRemove | src/wayland-client.cpp:328-337 | how it changes when a handle goes out of scope |
| ProxyTheorems.NoRunFaults | src/wayland-client.cpp:100-188 | over every run, a fault (use of freed memory, a destroy call on an object that is dead, foreign or of another kind, use of what belongs to another library, a display led away from its record, a queue destroyed under a proxy in step) happens if and only if an event has carried another library's proxy to a proxy with a record, or a display with a record has been given another one |
| ProxyTheorems.CounterCoversHandles | src/wayland-client.cpp:255-275 | the counter of a data record is at least the number of handles on it, stored ones included; equal if and only if none was overwritten by copy assignment |
| ProxyTheorems.HandlesReachLiveObjects | src/wayland-client.cpp:255-275 | a handle with data always refers to a live C object of its own wrapper type that refers back to the data |
| ProxyTheorems.ObjectsLiveWhileHeld | src/wayland-client.cpp:339-371 | without overwrites, an object with a record is alive exactly while some handle refers to it |
| ProxyTheorems.ReleaseDestroysIffLast | src/wayland-client.cpp:339-371 | releasing a handle destroys the object and its record if and only if it accounts for the last count; displays are no exception |
| ProxyTheorems.DestroyedOnceByItsOwnFunction | src/wayland-client.cpp:347-363 | every C object is destroyed at most once, by the libwayland function of its wrapper type, and never if it is foreign (in runs without either mix-up of NoRunFaults; for those see ProxyMixups) |
| ProxyTheorems.DeadObjectsWereDestroyed | src/wayland-client.cpp:339-371 | in the same runs an object is dead exactly if such a call was made, and foreign objects stay alive |
| ProxyTheorems.DestroyRequestGoesFirst | src/wayland-client.cpp:224-233 | directly before its destruction an object gets a destroy request with opcode n if and only if it is a standard proxy that recorded n |
| ProxyTheorems.DestroyRequestIsFollowed | src/wayland-client.cpp:349-353 | no destroy request is sent without the destruction following it |
| ProxyTheorems.WrapsDescends | src/wayland-client.cpp:277-285 | along any chain of wrapped proxies the records get older: the measure by which the recursive release ends |
| ProxyTheorems.WrapsAcyclic | src/wayland-client.cpp:277-285 | no proxy wraps itself, through however many others |
| ProxyTheorems.WrappedOutlivesWrapper | src/wayland-client.cpp:277-285 | a wrapped proxy is alive while any wrapper is, and the destroying calls come wrapper first |
| ProxyHistory.StepEvolves | src/wayland-client.cpp:190-371 | over each operation: a count is lost exactly by overwriting, a record with a lost count is never deleted, and a record comes in step exactly by set_queue, by connecting to a display, or by a request on or the wrapping of a proxy in step, and stays so |
| ProxyHistory.OverwriteLeaks | src/wayland-client.cpp:292-311 | copy assignment over a counted handle loses a count |
| ProxyHistory.LeakIsForever | src/wayland-client.cpp:292-311 | after that, in every later state of every run the record is there, counts for more than its handles, and its object is alive |
| ProxyHistory.QueuesAgree | src/wayland-client.cpp:190-212 | over every run, each proxy that descends by requests and wrapping from a display or from a proxy set_queue was called on retains exactly the queue libwayland delivers its events to, and that queue is not destroyed |
| ProxyHistory.SetQueueSyncs | src/wayland-client.cpp:389-394 | set_queue brings any owned proxy in step, with that queue on both sides |
| ProxyHistory.CreatedAgreesIffParent | src/wayland-client.cpp:190-212 | a proxy made by a request or by wrapping retains the queue it is on if and only if its parent does |
| ProxyFields.RecordFields | src/wayland-client.cpp:190-394 | for every operation and record: handlers are set exactly by the first set_events, the destroy opcode by set_destroy_opcode, the retained queue by set_queue, each through a handle on the record and to the very value given; nothing else changes them, and a new record has none but the queue asked for or its parent's |
| ProxyFields.ObjectFields | src/wayland-client.cpp:190-394 | for every operation and C object: its recorded opcode changes exactly by set_destroy_opcode through an owning non-display handle, to that opcode, its C-side queue exactly by set_queue; a new object is of the kind made, on the queue of its parent or of the proxy the event is for |
| ProxyFields.DestroyOpcodeExactly | src/wayland-client.cpp:224-233 | set_destroy_opcode records the given opcode in data and object and changes nothing else |
| ProxyFields.QueueVariables | src/wayland-client.cpp:500-506 | an event_queue_t variable refers to the queue it was created with or copied from until it goes |
| ProxyFields.FramesExactly | src/wayland-client.cpp:100-188 | a dispatch calls the handlers its target's record has when it begins, with as many arguments as the event has |
| ProxyFields.RecordedWasAsked | src/wayland-client.cpp:224-233 | over every run, an opcode recorded for an object was set by the program |
| ProxyFields.RequestsWereAsked | src/wayland-client.cpp:349-353 | over every run, a destroy request carries an opcode the program set |
| ProxyFields.HandlersWereSet | src/wayland-client.cpp:235-246 | over every run, the handlers a record holds or a dispatcher calls were set by the program |
| ProxyFields.CopiesIff | src/wayland-client.cpp:287-311 | copying a handle succeeds exactly if it points at something or is an empty standard one, and yields an equal handle; else it throws and leaves nothing |
| ProxyQueues.QueueAliveIffRetained | src/wayland-client.cpp:95-98 | over every run, an event queue is alive exactly while a record retains it or a variable refers to it, and wl_event_queue_destroy has been called for exactly the others, once |
| ProxyQueues.ReleaseLive | src/wayland-client.cpp:339-371 | a release with all it sets off destroys exactly the queues whose last reference goes |
| ProxyDispatch.DispatchKeepsTargetAlive | src/wayland-client.cpp:185-188 | whatever handlers release, at any nesting depth, the dispatched proxy is alive and its handler storage in place until the dispatcher returns |
| ProxyDispatch.DispatchEndExact | src/wayland-client.cpp:100-188 | in any reachable state inside a dispatch, whatever the handler has done: when it ends a record survives if and only if a chain of wrapped proxies (possibly of length 0) leads to it from a record that has lost a count or has a handle in a variable or an outer dispatcher, its object lives if and only if it does, and its counter falls by exactly the handles that go |
| ProxyDispatch.KeptOrDestroyed | src/wayland-client.cpp:100-188 | so an object kept by no one but the dispatcher is destroyed then, and one that a variable or an outer dispatcher refers to is not |
| ProxyDispatch.DispatchIsBalanced | src/wayland-client.cpp:116-188 | a dispatch whose handler performs no operation restores every handle and count, and destroys exactly what the event introduced |
| ProxyMixups.StrangerDestroyed | src/wayland-client.cpp:151-155 | for every state and every proxy of another library without user data: an event that carries just this proxy makes the dispatcher take it for its own and destroy it on return, though the handler does nothing |
| ProxyMixups.StrangerRun | src/wayland-client.cpp:151-155 | a concrete run of five operations that ends so |
| ProxyMixups.DisconnectedTwice | src/wayland-client.cpp:255-275 | for every state with a display that one variable holds: once the public constructor has been called for it again, giving up the two handles disconnects it twice, the second time when it is dead |
| ProxyMixups.DisconnectedTwiceRun | src/wayland-client.cpp:255-275 | a concrete run of four operations that does so |
| ProxyRuns.StepSafeIff | src/wayland-client.cpp:100-371 | for every state and operation, the operation keeps the ownership invariant if and only if it is neither the dispatch, to a proxy with a record, of an event that carries a foreign proxy nor the construction of a handle for a display that has a record; otherwise there is a fault |
| ProxyRuns.RawSafeIff | src/wayland-client.cpp:255-275 | constructing a handle, by wrapper type and queue, for any object of ours keeps the invariant if and only if it is not a display that has a record; if it is, the record is left without its object, whether or not that is called a fault |
| ProxyRuns.DispatchSafeIff | src/wayland-client.cpp:151-155 | for every state and event, the dispatch keeps the ownership invariant if and only if the event carries no foreign proxy or goes to a proxy without record |
| ProxyRuns.RunInvOrFault | src/wayland-client.cpp:190-371 | every run from a state with the invariant either meets no such event and no such second record and keeps the invariant, or has faulted |
| ProxyRuns.RunKeepsInv | src/wayland-client.cpp:255-371 | the ownership invariant holds after every run of constructions, copies, moves, releases, requests, wraps, queue changes and nested dispatches that meets neither |
| ProxyRuns.StepKeepsInv | src/wayland-client.cpp:190-371 | each single operation but those two keeps the ownership invariant |
| ProxyInvariant.ReleaseCore | src/wayland-client.cpp:339-371 | a release, with all the releases it sets off, keeps handles, records and objects consistent |
| ProxyInvariant.ReleaseTrace | src/wayland-client.cpp:339-371 | and makes its calls in an order in which no object is destroyed twice or before its wrappers |
| ProxyInvariant.NoLiveWrapper | src/wayland-client.cpp:277-285 | when the last count of a proxy goes, no live wrapper over it is left |
| ProxyOwners.ReleaseRefines | src/wayland-client.cpp:339-371 | release on counters does what release on sets of owners does, nested releases included |
| ProxyOwners.StepRefines | src/wayland-client.cpp:190-371 | every operation, dispatches included, refines the same operation of a machine that knows no counters, only who owns what |
| ProxyOwners.RunRefines | src/wayland-client.cpp:190-371 | on every run without overwriting copy assignments the program is in exactly the state of that machine |
| ProxyOwners.LiveIffOwned | src/wayland-client.cpp:339-371 | in that state a record exists exactly while it has an owner |
| ProxyRuntime.Runtime.ProxyRelease | src/wayland-client.cpp:339-371 | the member function, with its libwayland calls and nested release, does exactly what the specified release does; every call finds its object alive |
| ProxyRuntime.Runtime.DestroyObject | src/wayland-client.cpp:345-363 | the switch over the wrapper type |
| ProxyRuntime.Runtime.DeleteData | src/wayland-client.cpp:79-87 | deleting a record releases the wrapped proxy, then the queue |
| ProxyRuntime.Runtime.ReleaseQueue | src/wayland-client.cpp:95-98 | an event queue is destroyed when its last reference goes (QueueAliveIffRetained says so over runs), and no proxy in step is left on it |
| ProxyRuntime.Runtime.ConstructHandle | src/wayland-client.cpp:255-275 | a handle adopts the record it finds, counting itself, or makes one; a display always makes one, a foreign handle never; another library's user data is a fault |
| ProxyRuntime.Runtime.ConstructRawHandle | src/wayland-client.cpp:255-275 | the public constructor by the wrapper type of the object, a display's second record noted as a fault |
| ProxyRuntime.Runtime.CopyAssignHandle | src/wayland-client.cpp:292-311 | the new state, the history of overwritten counts, and exactly when it throws |
| ProxyRuntime.Runtime.CopyConstructHandle | src/wayland-client.cpp:287-290 | as above, with no handle left behind when it throws |
| ProxyRuntime.Runtime.MoveAssignHandle | src/wayland-client.cpp:318-326 | handles are exchanged and no count changes |
| ProxyRuntime.Runtime.MoveConstructHandle | src/wayland-client.cpp:313-316 | the source is left empty and no count changes |
| ProxyRuntime.Runtime.DestroyHandle | src/wayland-client.cpp:328-337 | the destructor releases |
| ProxyRuntime.Runtime.MarshalNewProxy | src/wayland-client.cpp:190-212 | a request's new proxy is on the parent's C-side queue, retains the parent's retained queue, and ignores uninitialised user data |
| ProxyRuntime.Runtime.CreateProxyWrapper | src/wayland-client.cpp:277-285 | the wrapper retains queue and a counted reference to what it wraps |
| ProxyRuntime.Runtime.ConnectDisplay | src/wayland-client.cpp:465-483 | a display gets a record whatever libwayland keeps in its user data |
| ProxyRuntime.Runtime.SetQueueOf | src/wayland-client.cpp:389-394 | libwayland is told before the old queue reference is dropped |
| ProxyRuntime.Runtime.SetEventsOf | src/wayland-client.cpp:235-246 | only the first handler storage is kept |
| ProxyRuntime.Runtime.SetDestroyOpcodeOf | src/wayland-client.cpp:224-233 | the opcode given is recorded for every handle of the object (DestroyOpcodeExactly); a display throws |
| ProxyRuntime.Runtime.UnpackAll | src/wayland-client.cpp:112-183 | the object arguments of an event, foreign ones included, are made into counted handles in order, up to the fault another library's data is |
| ProxyRuntime.Runtime.EnterDispatcher | src/wayland-client.cpp:100-188 | a dispatch on a known proxy takes its arguments, whatever they are, and a handle to its target, on an unknown one nothing |
| ProxyRuntime.Runtime.DropAll | src/wayland-client.cpp:112-188 | the argument handles are released in order on the way out |
| ProxyRuntime.Runtime.LeaveDispatcher | src/wayland-client.cpp:185-188 | the dispatcher's own handle and all argument handles are released |
| ProxyRuntime.Runtime.Perform | src/wayland-client.cpp:190-371 | for every operation the imperative members go to exactly the state the theorems about runs speak of, and the invariant is kept exactly by the safe operations |
| GlobalLifetime.CounterIsHandles | src/wayland-server.cpp:758-852 | over every run the counter of a global's record equals the number of handles on it and is positive, and nothing that is gone is used |
| GlobalLifetime.AliveIffHeld | src/wayland-server.cpp:765-777 | a global is alive exactly while a handle on it exists, and its user data then leads to its record |
| GlobalLifetime.DiesWithLastHandle | src/wayland-server.cpp:765-823 | a step destroys a global if and only if it gives up the only handle on it |
| GlobalLifetime.CallsInOrder | src/wayland-server.cpp:765-777 | no C call is made twice for a global, its user data is cleared immediately before it is destroyed, and no call follows |
| GlobalLifetime.CallsAreComplete | src/wayland-server.cpp:845-852 | a global is destroyed, or withdrawn, exactly if the call was made |
| GlobalLifetime.RemoveOnce | src/wayland-server.cpp:845-852 | removing again, through any handle of the global, does nothing |
| GlobalLifetime.WithdrawnExactly | src/wayland-server.cpp:845-852 | a step withdraws a global if and only if it is remove() through a handle on it |
| GlobalLifetime.GlobalsExactly | src/wayland-server.cpp:758-791 | globals come from the constructor and from C code, new ones alive and not withdrawn, and none is forgotten or changes owner |
| GlobalLifetime.CallsExactly | src/wayland-server.cpp:765-852 | each step makes exactly its calls: the first remove() of a global wl_global_remove, giving up the only handle the two that end it, all others none |
| GlobalLifetime.HandlesAreReferences | src/wayland-server.cpp:758-823 | after each step every variable holds what it would if handles were plain references |
| GlobalLifetime.RunInv | src/wayland-server.cpp:758-852 | the invariant behind these holds after every run |
| GlobalLifetime.Globals.FiniHandle | src/wayland-server.cpp:765-777 | fini: the counter falls, and at zero user data, global and record go in that order |
| GlobalLifetime.Globals.CreateGlobal | src/wayland-server.cpp:758-763 | a new global starts with one handle |
| GlobalLifetime.Globals.LookupGlobal | src/wayland-server.cpp:784-791 | a lookup by pointer joins the record if there is one; a null pointer throws |
| GlobalLifetime.Globals.CopyHandle | src/wayland-server.cpp:793-799 | a copy is counted |
| GlobalLifetime.Globals.AssignHandle | src/wayland-server.cpp:806-816 | assignment gives up the old record first, which is safe even when both handles share it |
| GlobalLifetime.Globals.MoveHandle | src/wayland-server.cpp:801-804 | moving leaves the source empty |
| GlobalLifetime.Globals.MoveAssignHandle | src/wayland-server.cpp:818-823 | moving exchanges |
| GlobalLifetime.Globals.DestroyHandle | src/wayland-server.cpp:779-782 | the destructor gives up the record |
| GlobalLifetime.Globals.RemoveGlobal | src/wayland-server.cpp:845-852 | wl_global_remove is called if and only if it has not been for this global (CallsExactly) |
| GlobalBinding.BoundAsAsked | include/wayland-server.hpp:737-744 | bind_func exchanges version and id, the generated constructor exchanges them back: the resource is the one asked for, ids above 2^31 included |
| GlobalBinding.DirectConstruction | scanner/scanner.cpp:708-709 | called directly, the generated constructor creates what its parameters say only if both are the same 32 bits |
| EventLoop.CounterIsHandles | src/wayland-server.cpp:922-989 | over every run the counter equals the number of handles, zero included, and nothing freed is used |
| EventLoop.CallbacksStayValid | src/wayland-server.cpp:1013-1035 | every pointer handed to libwayland denotes the function registered with it for as long as the loop lives |
| EventLoop.FreedOnce | src/wayland-server.cpp:890-896 | every record ever made exists or was freed exactly once, directly after its loop was destroyed |
| EventLoop.DestroyedByOwner | src/wayland-server.cpp:931-939 | a display's loop is never destroyed by a handle, an owned one never by a display |
| EventLoop.DiesExactly | src/wayland-server.cpp:931-939 | an owned loop and its record go exactly when the only handle is given up; a display's go exactly with the display |
| EventLoop.ReacquiresRecord | src/wayland-server.cpp:947-959 | looking a display's loop up again finds the same record and callbacks, also after the count was zero |
| EventLoop.DestroyDisplaySafeIff | src/wayland-server.cpp:890-896 | destroying the display keeps the invariant if and only if no handle on its loop is left; any other handle uses freed memory when it is destroyed |
| EventLoop.ListsExactly | src/wayland-server.cpp:1013-1035 | each list of functions grows exactly by what is registered for its own kind of source |
| EventLoop.SourcesExactly | src/wayland-server.cpp:1013-1035 | a source is there from its registration to its removal, is called through the function for the kind asked for, points into the list of that kind, and never changes |
| EventLoop.LoopsExactly | src/wayland-server.cpp:890-959 | loops come from create() and from displays, and who manages one never changes |
| EventLoop.HandlesAreReferences | src/wayland-server.cpp:941-994 | after each step every variable holds what it would if handles were plain references |
| EventLoop.RunInv | src/wayland-server.cpp:882-1035 | the invariant behind these holds after every run |
| EventLoop.Loops.InitHandle | src/wayland-server.cpp:922-929 | a new record with its destroy listener |
| EventLoop.Loops.FiniHandle | src/wayland-server.cpp:931-939 | the counter falls, and only an owned loop is destroyed at zero |
| EventLoop.Loops.LookupLoop | src/wayland-server.cpp:947-959 | the record found through the listener is joined, or one is made that does not own the loop |
| EventLoop.Loops.CreateLoop | src/wayland-server.cpp:941-945 | a loop of its own, which it owns |
| EventLoop.Loops.CopyHandle | src/wayland-server.cpp:966-971 | a copy is counted |
| EventLoop.Loops.AssignHandle | src/wayland-server.cpp:978-987 | assignment gives up the old loop first |
| EventLoop.Loops.MoveAssignHandle | src/wayland-server.cpp:989-994 | moving exchanges |
| EventLoop.Loops.DestroyHandle | src/wayland-server.cpp:961-964 | the destructor gives up the loop |
| EventLoop.Loops.AddCallback | src/wayland-server.cpp:1013-1035 | the pointer registered denotes the function just added, for the kind of source asked for |
| EventLoop.Loops.DestroyDisplayOf | src/wayland-server.cpp:890-896 | the listener frees the record with the loop |
| ReadIntent.ReadersConserved | src/wayland-client.cpp:430-462 | the display's reader count is the number of open intents less the number of failed reads, so right if and only if no read failed |
| ReadIntent.ResolvedOnce | src/wayland-client.cpp:430-462 | an intent is finalized at the latest when it goes out of scope and lowers the count exactly once, plus once per failed read of its own |
| ReadIntent.FailedReadCancelsTwice | src/wayland-client.cpp:455-462 | a concrete run: a failed read and the end of the scope leave the count at -1 |
| ReadIntent.StepExactly | src/wayland-client.cpp:430-462 | an intent is finalized exactly by a cancel, a successful read or the end of its scope, and each operation changes the reader count by exactly its share |
| ReadIntent.QueuesExactly | src/wayland-client.cpp:523-565 | a queue loses events only by obtaining an intent for it, what leaves it is handled, and only reads bring events, behind those there |
| ReadIntent.FailureLosesNothing | src/wayland-client.cpp:523-545 | after a failed attempt, obtaining the intent later leaves the display exactly as if there had been no failure |
| ReadIntent.FinalizedIsInert | src/wayland-client.cpp:447-462 | a finalized intent never touches the display again |
| ReadIntent.ReadIsHandled | include/wayland-client.hpp:391-404 | events a read brings are handled in order after those already pending, by the time the next intent is obtained |
| ReadIntent.HandledThenRest | src/wayland-client.cpp:523-545 | when dispatching stops with an error after any number of events, those handled and those left are together all of them, in order |
| ReadIntent.EachHandledOnce | src/wayland-client.cpp:562-565 | draining a queue handles every event exactly once, those that handlers add included |
| ReadIntent.DrainedByGeneration | src/wayland-client.cpp:562-565 | all pending events are handled in queue order before any that their handlers add, and those in the order added |
| ReadIntent.HandledInOrder | src/wayland-client.cpp:562-565 | in queue order if handlers add none |
| ReadIntent.Display.ObtainReadIntent | src/wayland-client.cpp:523-545 | the loop ends; for any errors of either call at any time the outcome is determined; success means an empty queue and one more reader, an error leaves readers and intents as they were and only the events handled before it are gone |
| ReadIntent.Display.Announce | src/wayland-client.cpp:525-531 | the loop itself |
| ReadIntent.Display.CancelRead | src/wayland-client.cpp:447-453 | a second cancel throws and changes nothing |
| ReadIntent.Display.ReadIntentEvents | src/wayland-client.cpp:455-462 | the three outcomes, and what each does to the count and the intent |
| ReadIntent.Display.DestroyIntent | src/wayland-client.cpp:430-440 | an open intent is cancelled |
| ArgumentStorage.CopiesAreValues | src/wayland-util.cpp:48-87 | after every run each array_t and argument_t has the content it would have if arrays were plain values: copies are equal and independent |
| ArgumentStorage.ArraysMatchArguments | src/wayland-util.cpp:48-87 | heap arrays and array-kind arguments correspond one to one |
| ArgumentStorage.BuffersAreDisjoint | src/wayland-util.cpp:67-74 | no two arrays share a buffer, and each has the size of its content |
| ArgumentStorage.ReleasedOnce | src/wayland-util.cpp:80-87 | every buffer and heap array is in use or was released exactly once |
| ArgumentStorage.StepRefines | src/wayland-util.cpp:48-191 | each operation of the two classes refines the same operation on values |
| ArgumentStorage.Memory.AssignFrom | src/wayland-util.cpp:53-78 | operator= of argument_t: self-assignment, release of the old array, copy into a new one |
| ArgumentStorage.Memory.CopyFrom | src/wayland-util.cpp:48-51 | the copy constructor |
| ArgumentStorage.Memory.FromArrayT | src/wayland-util.cpp:120-125 | an argument made from an array_t owns a copy |
| ArgumentStorage.Memory.DestroyArgument | src/wayland-util.cpp:80-87 | the destructor releases what the argument owns |
| ArgumentStorage.Memory.CopyArrayT | src/wayland-util.cpp:158-162 | the copy constructor of array_t |
| ArgumentStorage.Memory.AssignArrayT | src/wayland-util.cpp:175-185 | operator= of array_t |
| ArgumentStorage.Memory.DestroyArrayT | src/wayland-util.cpp:170-173 | the destructor of array_t |
| ArrayConversion.ForEach | include/wayland-util.hpp:39-42 | the pointer loop runs as often as element starts lie inside the array |
| ArrayConversion.VisitsWhole | include/wayland-util.hpp:39-42 | that is the number of whole elements if and only if the size is a multiple of the element size, and one more otherwise |
| ArrayConversion.FromVector | include/wayland-util.hpp:488-496 | the loop stores element i mod 2^32 of the vector at position i |
| ArrayConversion.ToVector | include/wayland-util.hpp:514-521 | the loop splits the bytes into elements, and reads past the end if they do not divide evenly |
| ArrayConversion.SplitIsExact | include/wayland-util.hpp:514-521 | reading back is defined exactly for sizes divisible by the element size, and then loses nothing |
| ArrayConversion.VectorRoundTrip | include/wayland-util.hpp:488-521 | a vector comes back unchanged if and only if the wrapping counter does not matter, so always up to 2^32 elements |
| ArrayConversion.RoundTripThroughCopies | include/wayland-util.hpp:488-521 | the same, for a vector made into an array_t or assigned to one, with any path of copies and assignments between array_t and argument_t objects, and dispatchers, in between |
| Bitfield.EnumWidth | scanner/scanner.cpp:1072-1092 | the loop computes the least width in which all entries fit |
| Bitfield.CombinationsFit | scanner/scanner.cpp:1088-1090 | any combination of an enum's entries fits the width |
| Bitfield.OperatorBits | include/wayland-util.hpp:387-405 | what each operator does to every single bit |
| Bitfield.Closed | include/wayland-util.hpp:387-405 | the operators keep values in range |
| Bitfield.DoubleComplement | include/wayland-util.hpp:402-405 | complementing twice is the identity exactly on values in range |
| Bitfield.DeMorgan | include/wayland-util.hpp:387-405 | both of De Morgan's laws |
| Bitfield.XorIsDifference | include/wayland-util.hpp:397-400 | a xor b is (a or b) and not (a and b) |
| Bitfield.XorUndoes | include/wayland-util.hpp:397-400 | xor undoes itself exactly on values in range |
| Bitfield.Complements | include/wayland-util.hpp:387-405 | a value and its complement make up the mask and share nothing |
| Bitfield.Distributes | include/wayland-util.hpp:387-395 | and, or distribute over each other |
| Bitfield.FdEventMaskTooNarrow | src/wayland-server.cpp:877-880 | two of the four constants of the server's fd_event_mask_t are out of range of its width, with what goes wrong for exactly those |
| Bitfield.Variable.OrAssign | include/wayland-util.hpp:407-411 | bits after the compound operator |
| Bitfield.Variable.AndAssign | include/wayland-util.hpp:413-417 | bits after the compound operator |
| Bitfield.Variable.XorAssign | include/wayland-util.hpp:419-423 | bits after the compound operator, in range whatever the value was |

## Left out

- EndToEnd.RequestArrives: an untyped new_id (`bind`) on the receiving side, because the generated `types` table is then not aligned with the letters (`TableAlignment`); the sending side is covered by `StubMatchesSignature`.
- EndToEnd.EventArrives: new_id arguments in events, whose server stubs pass no id.
- ProxyHistory.QueuesAgree: proxies that events create and foreign handles retain no queue, so they are not in step from the start; `StepEvolves` says exactly what brings a proxy in step.
- ProxyDispatch.DispatchIsBalanced: a handler that does something is the subject of `DispatchEndExact`; here existing arguments that have no record yet would be adopted and destroyed with the dispatch; they are required to have one.
- ProxyMixups.StrangerDestroyed: events with further arguments, and foreign proxies with user data: for those `DispatchSafeIff` says that there is a fault, but what the code makes of data that is not its own is not modelled.
- ProxyMixups.DisconnectedTwice: a display held by several variables when its second record is made; `RawSafeIff` covers these states.
- EndToEnd.RequestArrivesIntact: resources that C code made with user data of its own, such as a wl_buffer of libwayland's wl_shm, whose data would be taken for a `data_t` (src/wayland-server.cpp:519-527, 646-651); every known resource is taken to be one of this library's.
- ProxyRuntime.Runtime.ProxyRelease: clears the handle's own fields at the start and not at the end; nothing reads them in between.
- Delivery.StubMatchesSignature: whether a stub compiles in other respects: a stub with an untyped new_id uses private members of proxy_t, whose only generated friend is registry_t (include/wayland-client.hpp:148-174), and on the server side names a type that is only declared.
- ReadIntent.Display.ObtainReadIntent: handlers run while pending events are dispatched may add events to that queue, but obtain no intents of their own.
- Bitfield.EnumWidth: entries with value zero, for which the source converts the logarithm of zero to an integer; and entries from 2^30 on, whose width of 31 or more makes the shift in include/wayland-util.hpp:340 overflow an int.  The laws of the operators are stated for widths below 32.
- ArrayConversion.FromVector: allocation failure and element types that are not trivially copyable.
- Counters are unbounded numbers and steps are sequential: no 32-bit wrap-around, threads or atomics.
- Failing C calls and memory exhaustion, except where an error is a result of a step.
- Handles captured by handlers: the closures in a record's handler storage may hold proxy_t objects, which `delete data` would destroy last and which can form cycles through the record itself.
- The rounding of doubles: reals stand for them, and the conversion to fixed point rounds to the nearest and keeps the low 32 bits, where some versions of libwayland truncate or leave the result for values out of range undefined.
- The order in which a display and other proxies on it are destroyed, and calls back into the program from inside wl_global_remove or wl_global_destroy (the display's global filter).
- The null-argument checks at the head of c_dispatcher, and the extra temporaries handlers make of their arguments.
- The counters of client_t, resource_t and server display_t: the first two are only ever incremented, the last is the discipline of GlobalLifetime again.
- Moves of array-kind argument_t and of read_intent, and moved-from event_loop_t handles, whose destructor needs non-null data.
- GlobalLifetime.RunInv: the end of the display, which frees all its globals (`wl_display_destroy`): the display is taken to outlive the handles on its globals.
- Wrapping a foreign proxy, and constructing a handle with another wrapper type than the data was made with.
- Bitfield enums on int arguments; file descriptors above the int32 range.
- XML reading, name sanitising, documentation text and header preambles of the scanner; the command line.
- Cursor and EGL wrappers, log handlers, examples, the build system; one-line getters and forwarding members.
- event_source_t, whose only own behaviour is to forward to libwayland.
