# The Freeteuse remote control, modelled in Dafny

Freeteuse is an Android remote control for Freebox players. Its engine is a small
concurrent C++ object, `Rcu`, driven by Java code. This project models both and proves
what they guarantee. `dafny verify dfyconfig.toml` checks everything.

## What is modelled

**The engine** (`Messages`, `Protocol`, `ProtocolInvariant`, `ProtocolTheorems`). One `Rcu`
as a labelled transition system with three threads. The UI thread connects, writes key
messages into a bounded pipe, disconnects and destroys. The looper thread reads keys, sends
HID reports, defers one release to a timer and hears the HID client's status callbacks. The
status thread drains a second pipe until a close marker comes. A step
covers at most one write to a pipe, one read of it or one join, together with what no other
thread looks at, and any other thread may move between two steps. Ghost history records all messages created and deleted, everything written to and
read from each pipe, all reports and all posts to the UI. The theorems hold in every
reachable state, that is, for every interleaving: `Protocol.UiNext` follows
`app/src/main/cpp/Rcu.cpp:194-231` and `310-440`, `Protocol.LooperNext` follows `106-191`,
`Protocol.ReaderNext` follows `234-277` and `Freebox.java:200-223`.

**The same engine as an object** (`Pipes`, `RcuEngine`). `class Rcu` has the fields of the
C++ class, updates them in place, and holds pointers into a heap of messages. A ghost field
carries the protocol state. Each method is proved to move it along the labels of its own
steps, so the protocol theorems speak about the object. What a callback asks for
(`CallbackReady`, `SendReady`, `StatusReady`, `ReadReady`) is proved of every state that keeps
the invariant.

**The application** (`Boxes`, `Painters`, `Apps`, `Handles`, `Sessions`, `SessionInvariant`,
`SessionTheorems`, `SessionHandlers`). Selecting, detecting, next and previous, pausing and resuming, statuses
delivered through the UI queue, and the native engines that these create and destroy, each of
them a full protocol state with its threads running in between. A handler that disconnects
returns only when the engine is destroyed, so it is two steps. `Sessions.Next` puts together
the functions of `Apps`, which follow `Home.java:68-201` and `MainActivity.java:83-107` and
`292-404`. `SessionHandlers` puts the two halves together again: what a handler does from its
beginning to its end, and that it can always come to its end.

**The Java classes in their own form** (`Freeboxes`, `Homes`, `Activities`, and the classes
inside `Macros`, `Resolvers`, `CheatCodes`, `Painters`). Each method changes its fields and is
proved to do what a function of `Apps` or of its own module says; for the handlers of MainActivity,
`SessionHandlers.HandlerDoes` proves that the runs of the application do the same.

**The macro player** (`Macros`, `MacroPlays`), with an end-to-end theorem from the tokens of a
macro to the reports that the box receives. **The resolver queue, the secret-code recogniser
and the UTF-16 packing** (`Resolvers`, `CheatCodes`, `Utf16`).

## What the environment is assumed to do

- The timer of the event loop may fire at any moment at which no callback runs. A firing with
  nothing pending does nothing (`Rcu.cpp:181`). This covers every timeout and every rearming.
- The watch on the looper pipe stays until it is removed, and `ela_exit` ends the loop when the
  running callback has returned.
- The HID client may report any status at any moment on the looper thread, and on the UI thread
  inside `Connect` and inside `foils_hid_deinit`, but not from inside the sending of a report.
- Addresses are numeric (`Rcu.cpp:318-319`), except in `RcuEngine.Rcu.Connect`, which states what
  happens to the others. Pipes open, and transfer whole pointers.
- A process starts with no saved pool, or with one that `Home.save` has written; it may die at any moment.
- A sniffer hands over a box with an address and no colour, on the UI thread, at any moment after
  the first resume, also while the application is paused.
- The listeners of keys and buttons do nothing while a macro plays (`MainActivity.java:124`, `155`,
  `165`, `177`, `201`), so a macro is the only sender of keys while it plays.

## What came out false, and exactly when

- An entry of the secret code is not always recognised: `CheatCodes.EntryFiresExactly` says when it
  is, `CheatCodes.EntryCanBeMissed` shows a miss.
- The active box can be outside the registry: `SessionTheorems.RegisteredExactly` says when,
  `SessionTheorems.LateDetectionOrphans` reaches it.
- A handler can ask for the colour of a null box: `SessionTheorems.PaintsNobodyExactly` says when,
  `SessionTheorems.NobodyIsPainted` reaches it.
- The engine can deadlock when statuses come faster than a pipe holds while nobody reads it:
  `ProtocolTheorems.DeadlockExactly` says when, `ProtocolTheorems.ConnectCanBlock` and
  `ProtocolTheorems.TeardownCanBlock` reach the two cases.
- Messages leak: statuses written after the close marker, and only those
  (`ProtocolTheorems.OnlyLateStatusesLeak`); `ProtocolTheorems.StatusesCanLeak` reaches it.
- Next and previous differ at the ends: `Boxes.NavigationFromNowhere`.
- The delays of a macro are not kept when it is started over a running one:
  `Macros.DelaysAreKeptExactly` says when they are, `Macros.RestartDoesNotWait` is an instance. The user
  interface starts one only on a stopped player (`MainActivity.java:124`).

## Model

| member | source | states |
|---|---|---|
| `ProtocolTheorems.TimingIndependence` | app/src/main/cpp/Rcu.cpp:124-191 | In every reachable state with no key callback running: reports sent, then the one deferred release, equal the expansion of the keys consumed so far, however pipe reads and timer firings interleaved |
| `ProtocolTheorems.ReportsArePrefix` | app/src/main/cpp/Rcu.cpp:124-191 | At every moment, also inside a callback, the box has received a prefix of what the keys read, and so of what the keys sent, mean |
| `ProtocolTheorems.ClickIsNotTorn` | app/src/main/cpp/Rcu.cpp:140-173 | For every press-with-release ever sent: the report after its press is its own release, whatever follows it in the pipe |
| `ProtocolTheorems.EveryReportInItsPlace` | app/src/main/cpp/Rcu.cpp:149-173 | In every reachable state, for every key sent: at the place given by counting 1 for each bare press or release and 2 for each click before it, the box has received (report, code) for a press, (report, 0) for a release, and both for a click; no other reports, and all of them after the join |
| `ProtocolTheorems.DrainOnShutdown` | app/src/main/cpp/Rcu.cpp:399-406 | Once the join of the looper thread has returned, the reports are exactly the expansion of all the keys sent, in order; the looper pipe is empty and no release is pending |
| `ProtocolTheorems.CleanUpFindsNothing` | app/src/main/cpp/Rcu.cpp:426-430 | The clean-up branch at the end of Disconnect never finds a key to delete |
| `ProtocolTheorems.LastValueIsLastKey` | app/src/main/cpp/Key.cpp:53-68 | For any list of key messages, the last value a report id gets is the code of its last key message if that is a bare press, and 0 otherwise |
| `ProtocolTheorems.NoKeyLeftDown` | app/src/main/cpp/Rcu.cpp:399-406 | After shutdown a report id is left at a non-zero value if and only if the last key message on it was a bare press of a non-zero code |
| `ProtocolTheorems.StatusesInOrder` | app/src/main/cpp/Rcu.cpp:234-277 | The UI handler has received, at every moment, a prefix of the names of the statuses written, in writing order |
| `ProtocolTheorems.StatusStream` | app/src/main/java/bzh/leroux/yannick/freeteuse/Freebox.java:202-222 | "EXIT" has been posted iff the status thread has ended; then the posts are the names of all statuses written before the close marker, none of them "EXIT", and one final "EXIT" |
| `ProtocolTheorems.OneOwner` | app/src/main/cpp/Rcu.cpp:106-277 | Every message ever created is in exactly one place: one of the two pipes, one thread's hand, the pending slot, or deleted; so none is deleted twice |
| `ProtocolTheorems.NothingFromNowhere` | app/src/main/cpp/Rcu.cpp:106-277 | Nothing is held or deleted that was never created |
| `ProtocolTheorems.OnlyLateStatusesLeak` | app/src/main/cpp/Rcu.cpp:399-440 | At destruction the messages never deleted are exactly those still in the status pipe, which are the statuses written after its close marker |
| `ProtocolTheorems.NoUseOutsideLifetime` | app/src/main/cpp/Rcu.cpp:399-440 | In every reachable state, no enabled step of any thread touches the Rcu, a pipe, the event loop, an event source, the HID client or a message before it is created or after it is freed |
| `ProtocolTheorems.NoFreeUnderWaiter` | app/src/main/cpp/Rcu.cpp:399-440 | In every reachable state, whatever a thread waits on is alive as well: the pipe it is reading or writing with the message being written, and the event loop with its sources, its watched pipe and the HID client |
| `ProtocolTheorems.StepDescends` | app/src/main/cpp/Rcu.cpp:129-172 | A rank (5 per queued key, 3 per queued status, 1 for a pending release, and each thread's position) falls at every step a thread takes on its own and grows by at most 6 at an external event |
| `ProtocolTheorems.LifeIsBounded` | app/src/main/cpp/Rcu.cpp:310-440 | Every run of an Rcu, from construction on and however interleaved, has at most 180 steps plus 7 per key, status callback or spurious timer |
| `ProtocolTheorems.SomeoneMoves` | app/src/main/cpp/Rcu.cpp:399-408 | Until destruction some thread of the chain UI, looper, status thread can take a step of its own, unless the UI thread is posting into a full status pipe that nobody reads |
| `ProtocolTheorems.DeadlockExactly` | app/src/main/cpp/Rcu.cpp:310-433 | With room for at least one message, the engine is stuck if and only if Connect has posted more statuses than a pipe holds, or the HID teardown has after the status thread ended |
| `ProtocolTheorems.ShutdownCompletes` | app/src/main/cpp/Rcu.cpp:399-440 | From every state that keeps the invariant, if Connect and the teardown post no more statuses than a pipe holds, the threads on their own reach destruction within the rank |
| `ProtocolTheorems.ConnectCanBlock` | app/src/main/cpp/Rcu.cpp:356-389 | For every capacity there is a reachable deadlock: Connect posts one status more than the pipe holds before the status thread exists |
| `ProtocolTheorems.TeardownCanBlock` | app/src/main/cpp/Rcu.cpp:419-421 | For every capacity the second deadlock is reachable: the HID client posts one status more than the pipe holds while it is torn down, after the status thread has ended |
| `ProtocolTheorems.StatusesCanLeak` | app/src/main/cpp/Rcu.cpp:399-440 | For every number of statuses that the pipe holds, a run ends with that many left in the status pipe of a destroyed Rcu, created and never deleted |
| `ProtocolInvariant.UiKeepsInv` | app/src/main/cpp/Rcu.cpp:194-231 | Each step of Connect, SendKeyPress, SendKeyRelease, Disconnect, the join and the destructor keeps the whole invariant: objects, pipes, reports, statuses, ownership |
| `ProtocolInvariant.LooperKeepsInv` | app/src/main/cpp/Rcu.cpp:124-191 | Each step of OnKeyAvailable, OnKeyRelease and OnStatus keeps the whole invariant |
| `ProtocolInvariant.ReaderKeepsInv` | app/src/main/cpp/Rcu.cpp:234-277 | Each step of ReadStatus and of the posting loop keeps the whole invariant |
| `ProtocolInvariant.RunKeepsInv` | app/src/main/cpp/Rcu.cpp:106-440 | The invariant holds at the end of every run of the three threads |
| `Messages.ExpandConcat` | app/src/main/cpp/Key.cpp:41-81 | What two lists of keys mean, one after the other, is what each means, one after the other |
| `Messages.NamesTell` | app/src/main/cpp/Rcu.cpp:241-270 | Each of the five status names stands for its own HID state and for no other, and "EXIT" for the close marker alone |
| `Pipes.DecodeEncode` | app/src/main/cpp/Pipe.cpp:52-72 | A pointer written as a record of bytes is read back as itself |
| `Pipes.FramesInjective` | app/src/main/cpp/Pipe.cpp:52-72 | The byte stream of a pipe determines the sequence of pointers written to it |
| `Pipes.Pipe.Write` | app/src/main/cpp/Pipe.cpp:66-72 | Appends one pointer to the contents, and keeps the byte stream the framing of the contents |
| `Pipes.Pipe.Read` | app/src/main/cpp/Pipe.cpp:52-63 | Takes the oldest pointer written, whole, out of the byte stream and leaves the others |
| `RcuEngine.CallbackKeepsInv` | app/src/main/cpp/Rcu.cpp:124-173 | A whole OnKeyAvailable keeps the protocol invariant, consumes exactly one message and leaves the loop dispatching or ended |
| `RcuEngine.CallbackIsReady` | app/src/main/cpp/Rcu.cpp:129-172 | In every invariant state with a readable looper pipe, the message to be read and the pending key are two distinct live keys or markers, so no callback dereferences a freed pointer |
| `RcuEngine.SendIsReady` | app/src/main/cpp/Rcu.cpp:194-231 | Whenever the UI thread is free and the pipe has room, all that sending a key relies on holds: the pipe exists and the new pointer is not one that was deleted |
| `RcuEngine.StatusIsReady` | app/src/main/cpp/Rcu.cpp:106-115 | Wherever the HID client may call OnStatus from, with room in the pipe, all that it relies on holds: the static pointer is set and leads to a live status pipe |
| `RcuEngine.ReadIsReady` | app/src/main/cpp/Rcu.cpp:234-249 | Whenever the status pipe is readable, its oldest message is a live status or close marker, so the cast in ReadStatus never meets a key |
| `RcuEngine.Rcu.OnKeyAvailable` | app/src/main/cpp/Rcu.cpp:124-173 | The callback on the fields of the object does what its labels do to the protocol state: reports, pending slot, exit request, heap and pipe |
| `RcuEngine.Rcu.OnKeyRelease` | app/src/main/cpp/Rcu.cpp:176-191 | The timer callback releases and deletes the pending key, and does nothing when there is none |
| `RcuEngine.Rcu.SendKeyPress` | app/src/main/cpp/Rcu.cpp:194-217 | While the trigger exists, one new key of the right kind joins the looper pipe; otherwise nothing changes |
| `RcuEngine.Rcu.SendKeyRelease` | app/src/main/cpp/Rcu.cpp:220-231 | While the trigger exists, one new release key joins the looper pipe; otherwise nothing changes |
| `RcuEngine.Rcu.OnStatus` | app/src/main/cpp/Rcu.cpp:106-115 | From wherever the HID client calls it (Connect, the looper thread, the teardown): through the static pointer, one new status joins the status pipe; nothing happens when the pointer is null |
| `RcuEngine.Rcu.ReadStatus` | app/src/main/cpp/Rcu.cpp:234-277 | Takes the oldest message of the status pipe, deletes it, and returns its name, "EXIT" for the close marker |
| `RcuEngine.Rcu.Connect` | app/src/main/cpp/Rcu.cpp:310-396 | A numeric address opens fresh pipes and every object along a run of the protocol, with the looper thread dispatching and, in the status pipe, exactly the statuses that the HID client posts meanwhile, in order; any other address changes nothing and leaves both pipes null |
| `RcuEngine.Rcu.JoinLooper` | app/src/main/cpp/Rcu.cpp:403-404 | With the event loop firing its two callbacks in any order and the HID client posting statuses in between, the looper thread ends (2 per queued message plus 1 for a pending release falls), along a run of the protocol |
| `RcuEngine.Rcu.Disconnect` | app/src/main/cpp/Rcu.cpp:399-433 | Whatever statuses the HID client posts until the join and in its teardown, it ends along a run of the protocol with every object but the status pipe freed, no pending key, and the reports equal to the expansion of everything sent; the clean-up branch is dead code |
| `RcuEngine.StatusLoop` | app/src/main/java/bzh/leroux/yannick/freeteuse/Freebox.java:197-225 | The status thread's loop, once the close marker is in the pipe, ends; its posts complete the names of the statuses before the marker, followed by "EXIT" |
| `SessionTheorems.SingleEngine` | app/src/main/java/bzh/leroux/yannick/freeteuse/MainActivity.java:378-404 | Over all runs of the application, from any saved pool, at most one native engine exists; it is held by the active box and by no other; the static pointer, when set, leads to it |
| `SessionTheorems.EngineExactlyWhen` | app/src/main/java/bzh/leroux/yannick/freeteuse/Freebox.java:187-194 | In every reachable state with an active box, its engine exists if and only if the box has an address and a port other than 0; in particular whether it is reachable or not |
| `SessionTheorems.EnginesBehave` | app/src/main/java/bzh/leroux/yannick/freeteuse/Freebox.java:185-244 | Every engine of every run satisfies the protocol invariant, so the engine theorems hold inside the application |
| `SessionTheorems.SingleFocus` | app/src/main/java/bzh/leroux/yannick/freeteuse/MainActivity.java:378-392 | Between two events a box of the registry has the focus if and only if it is the active box |
| `SessionTheorems.RegistryUnique` | app/src/main/java/bzh/leroux/yannick/freeteuse/Home.java:178-201 | In every reachable state any two boxes of the registry differ in address or port, and every box of it has an address and a colour that the painter has counted |
| `SessionTheorems.CountsAreTallied` | app/src/main/java/bzh/leroux/yannick/freeteuse/Painter.java:46-77 | In every reachable state the count of a palette colour is exactly the number of boxes that the process has made with it, concealed ones included; so the palette is exhausted if and only if each colour has been used |
| `SessionTheorems.RestartIsAStart` | app/src/main/java/bzh/leroux/yannick/freeteuse/Home.java:70-80 | Whenever the process dies, what it has saved is a pool that a new run can start from |
| `SessionTheorems.NewColorIsFresh` | app/src/main/java/bzh/leroux/yannick/freeteuse/Painter.java:58-77 | In every reachable state, a box detected for the first time shares a known box's colour only when every palette colour has been used |
| `SessionTheorems.StatusesBySession` | app/src/main/java/bzh/leroux/yannick/freeteuse/Freebox.java:230-244 | All statuses of one engine reach the UI queue before any of the next one, with exactly one "EXIT" closing each session |
| `SessionTheorems.NoStaleStatus` | app/src/main/java/bzh/leroux/yannick/freeteuse/MainActivity.java:319-337 | With the UI queue drained, mConnected holds if and only if the active box has reported a status and its last one is "connected" |
| `SessionTheorems.ConnectedMeansConnected` | app/src/main/cpp/Rcu.cpp:259-261 | The same without names: with the UI queue drained, mConnected holds if and only if the last status that the active box's engine has read and posted is FOILS_HID_CONNECTED |
| `SessionTheorems.PaintsNobodyExactly` | app/src/main/java/bzh/leroux/yannick/freeteuse/Home.java:204-230 | Exactly when a next, previous or detected handler asks to paint the colour of a null box: no box is active and the handler connects none |
| `SessionTheorems.NobodyIsPainted` | app/src/main/java/bzh/leroux/yannick/freeteuse/MainActivity.java:163-169 | It is reachable: after a first resume, with no box at all, the next button does so |
| `SessionHandlers.NextArrives` | app/src/main/java/bzh/leroux/yannick/freeteuse/MainActivity.java:163-169 | From a reachable active box with a next reachable one: whatever the engine does meanwhile, once the disconnection returns that next one is active |
| `SessionHandlers.PreviousArrives` | app/src/main/java/bzh/leroux/yannick/freeteuse/MainActivity.java:153-159 | Likewise the previous one |
| `SessionHandlers.DetectionArrives` | app/src/main/java/bzh/leroux/yannick/freeteuse/MainActivity.java:304-309 | After a detection a box of the registry with the detected address and port is reachable; it is the active box unless a box was connected, and then the active box has not changed |
| `SessionTheorems.DetectionPaintsSomebody` | app/src/main/java/bzh/leroux/yannick/freeteuse/MainActivity.java:304-315 | A detection never does so once the UI queue is drained |
| `SessionTheorems.RegisteredExactly` | app/src/main/java/bzh/leroux/yannick/freeteuse/MainActivity.java:83-107 | Every event keeps the active box in the registry, if and only if it is not a resume with an active box and an empty saved pool |
| `SessionTheorems.RunKeepsRegistered` | app/src/main/java/bzh/leroux/yannick/freeteuse/MainActivity.java:292-404 | Over whole runs without such a resume the active box is an element of the registry |
| `SessionTheorems.LateDetectionOrphans` | app/src/main/java/bzh/leroux/yannick/freeteuse/Home.java:144-153 | Such a resume is reachable: a detection delivered after the boxes were concealed leaves an active box outside the registry, with a live engine ready for keys |
| `SessionHandlers.HandlerDoes` | app/src/main/java/bzh/leroux/yannick/freeteuse/MainActivity.java:83-404 | For resume, pause, next, previous and a detection in the runs of the application: whatever the engine's threads do until Freebox.disconnect returns, the handler has then done what it does as a whole, in the very functions that the methods of MainActivity are proved against |
| `SessionHandlers.HandlerReturns` | app/src/main/java/bzh/leroux/yannick/freeteuse/Freebox.java:230-244 | A disconnection that has begun always can return by the engine's own steps, if its UI thread posts no more statuses than a pipe holds |
| `SessionHandlers.ConnectReturns` | app/src/main/java/bzh/leroux/yannick/freeteuse/Freebox.java:185-227 | And so can the connection of a new engine |
| `SessionHandlers.HandlerCompletes` | app/src/main/java/bzh/leroux/yannick/freeteuse/MainActivity.java:83-404 | Under that condition every handler, begun in any state that keeps the invariant, can come to the next event by own steps of the engines it destroys and creates, and has done then what it does as a whole |
| `SessionInvariant.EngineKeepsInv` | app/src/main/java/bzh/leroux/yannick/freeteuse/Freebox.java:185-227 | Any step of any thread of the live engine keeps the invariant of the whole application |
| `SessionInvariant.SwitchKeepsInv` | app/src/main/java/bzh/leroux/yannick/freeteuse/MainActivity.java:378-386 | Beginning a switch of boxes keeps the invariant, and moves the focus to its target |
| `SessionInvariant.FinishDisconnectKeepsInv` | app/src/main/java/bzh/leroux/yannick/freeteuse/MainActivity.java:395-404 | The return of a disconnection keeps it: the old session is closed before the new engine exists |
| `SessionInvariant.InvKept` | app/src/main/java/bzh/leroux/yannick/freeteuse/MainActivity.java:83-404 | Every event of the application keeps the invariant |
| `Apps.PauseResumeRoundTrip` | app/src/main/java/bzh/leroux/yannick/freeteuse/Home.java:68-107 | Concealing and disclosing any sound registry gives back the same sequence of address, port, focus and colour, all unreachable and without engine, and selects the focused box, or else the first, or none when there is no box |
| `Apps.PauseThenResume` | app/src/main/java/bzh/leroux/yannick/freeteuse/MainActivity.java:83-107 | After a whole pause and a whole resume the active box is a new object with the address, port and colour of the box that was active, with the focus, unreachable, and with an engine if its port is not 0 |
| `Apps.ConcealedRecords` | app/src/main/java/bzh/leroux/yannick/freeteuse/Home.java:156-174 | The saved pool has one record a box, in order, with its port, address, focus and colour, and the registry is empty |
| `Apps.RecoveredRegistry` | app/src/main/java/bzh/leroux/yannick/freeteuse/Home.java:82-96 | From any saved pool the boxes of the records with a port and an address are recovered, in order, and no others |
| `Apps.KnownDetection` | app/src/main/java/bzh/leroux/yannick/freeteuse/Home.java:183-193 | The detection of a box with the address and port of a known one makes the first such box reachable and changes nothing else |
| `Apps.NewDetection` | app/src/main/java/bzh/leroux/yannick/freeteuse/Home.java:195-200 | The detection of an unknown box appends it in a palette colour, an unused one if there is any, counts that colour once and changes nothing else |
| `Apps.ToldIsReachable` | app/src/main/java/bzh/leroux/yannick/freeteuse/Home.java:183-200 | The box that the listener is told about is reachable and has the detected address and port |
| `Apps.ConnectionResult` | app/src/main/java/bzh/leroux/yannick/freeteuse/MainActivity.java:378-392 | Field by field: the target is active, has the focus, and an engine if and only if it has an address and a port; the box that was active has neither focus nor engine; nothing else changes |
| `Apps.NextIsNeighbour` | app/src/main/java/bzh/leroux/yannick/freeteuse/MainActivity.java:163-169 | The next button makes the next reachable box of the registry the active one |
| `Apps.PreviousIsNeighbour` | app/src/main/java/bzh/leroux/yannick/freeteuse/MainActivity.java:153-159 | The previous button makes the previous reachable box the active one |
| `Apps.NoNeighbour` | app/src/main/java/bzh/leroux/yannick/freeteuse/MainActivity.java:153-169 | Without a reachable box on that side they change nothing |
| `Apps.SelectedIsFocused` | app/src/main/java/bzh/leroux/yannick/freeteuse/Home.java:82-96 | Among saved records the focused one is selected, or else the first |
| `Apps.DiscloseKeepsRegistry` | app/src/main/java/bzh/leroux/yannick/freeteuse/Home.java:122-130 | Recovery of a saved pool yields distinct, coloured boxes of which at most the selected one has the focus |
| `Apps.ConcealKeepsRegistry` | app/src/main/java/bzh/leroux/yannick/freeteuse/Home.java:144-174 | A saved pool is complete, distinct and has at most one focus, so that recovery never meets a null colour |
| `Apps.DetectKeepsRegistry` | app/src/main/java/bzh/leroux/yannick/freeteuse/Home.java:178-201 | A detection, known or new, keeps the boxes apart and coloured, and tells the listener about an element of the registry |
| `Apps.ClashOnlyOnExhaustion` | app/src/main/java/bzh/leroux/yannick/freeteuse/Home.java:195-199 | A new box clashes in colour with a known one only when the palette is used up, and then it gets the first colour |
| `Boxes.JsonRoundTrip` | app/src/main/java/bzh/leroux/yannick/freeteuse/Freebox.java:46-59 | Saving and reading back a box keeps address, port, focus and colour if and only if it has an address, or has neither focus nor colour |
| `Boxes.FirstMissingKeyStops` | app/src/main/java/bzh/leroux/yannick/freeteuse/Freebox.java:46-59 | Field by field, for any record: a field is read if its key and the keys before it are there, and has its default otherwise |
| `Boxes.Find` | app/src/main/java/bzh/leroux/yannick/freeteuse/Home.java:183-193 | Returns the first known box with the same address and port, or nothing when there is none |
| `Boxes.NextIsAdjacent` | app/src/main/java/bzh/leroux/yannick/freeteuse/Home.java:233-251 | From a reachable box, next is y if and only if y is the first reachable box after it |
| `Boxes.PreviousIsAdjacent` | app/src/main/java/bzh/leroux/yannick/freeteuse/Home.java:254-272 | From a reachable box, previous is x if and only if x is the last reachable box before it |
| `Boxes.NavigationInverse` | app/src/main/java/bzh/leroux/yannick/freeteuse/Home.java:233-272 | For boxes x, y of a list without duplicates: x is reachable with next y if and only if y is reachable with previous x |
| `Boxes.NavigationFromNowhere` | app/src/main/java/bzh/leroux/yannick/freeteuse/Home.java:233-272 | From a box that is not in the list (or null) there is no next box, but there is a previous one unless no box is reachable |
| `Boxes.TourVisitsAll` | app/src/main/java/bzh/leroux/yannick/freeteuse/Home.java:233-251 | Iterating next from a reachable box visits the reachable boxes from it on exactly once, in list order, and stops; from the first one it visits them all |
| `Painters.ChoiceIsFresh` | app/src/main/java/bzh/leroux/yannick/freeteuse/Painter.java:58-77 | The colour handed out is unused if and only if some palette colour is unused; once all are used it is always the first of the palette |
| `Painters.ChoiceIsLast` | app/src/main/java/bzh/leroux/yannick/freeteuse/Painter.java:63-72 | An unused colour is handed out if and only if every later palette colour has been used |
| `Painters.FirstColors` | app/src/main/java/bzh/leroux/yannick/freeteuse/Painter.java:28-77 | A new painter hands out red, blue, green and yellow, and yellow for ever once all are used |
| `Painters.Painter.constructor` | app/src/main/java/bzh/leroux/yannick/freeteuse/Painter.java:34-43 | Every colour of the palette starts with a count of 0 |
| `Painters.Painter.UseColor` | app/src/main/java/bzh/leroux/yannick/freeteuse/Painter.java:46-55 | Counts a palette colour, and ignores any other |
| `Painters.Painter.GetColor` | app/src/main/java/bzh/leroux/yannick/freeteuse/Painter.java:58-77 | The running minimum that starts at 0 picks the last unused colour, else the first of the palette, and counts it |
| `Freeboxes.Freebox.FromRecord` | app/src/main/java/bzh/leroux/yannick/freeteuse/Freebox.java:46-59 | Reads the four keys in order; the first missing one leaves the later fields at their defaults |
| `Freeboxes.Freebox.Detected` | app/src/main/java/bzh/leroux/yannick/freeteuse/Freebox.java:62-72 | A sniffed box is reachable, without focus, colour or engine |
| `Boxes.EqualityOutlivesSaving` | app/src/main/java/bzh/leroux/yannick/freeteuse/Freebox.java:152-161 | Equality of boxes is an equivalence, and two boxes are equal if and only if what is read back after saving them is |
| `Freeboxes.Freebox.GetJson` | app/src/main/java/bzh/leroux/yannick/freeteuse/Freebox.java:164-182 | The record of a box; a null colour or address becomes a missing key |
| `Freeboxes.Freebox.Connect` | app/src/main/java/bzh/leroux/yannick/freeteuse/Freebox.java:185-227 | A box with an address and a port gets a new engine and a status thread; any other is left alone |
| `Freeboxes.Freebox.Disconnect` | app/src/main/java/bzh/leroux/yannick/freeteuse/Freebox.java:230-244 | A box that ever had a status thread loses its engine and its handle; any other is left alone |
| `Freeboxes.DisconnectTwice` | app/src/main/java/bzh/leroux/yannick/freeteuse/Freebox.java:230-244 | Disconnecting a second time changes neither the box nor the engines |
| `Homes.Home.GetNextReachable` | app/src/main/java/bzh/leroux/yannick/freeteuse/Home.java:233-251 | The loop over the registry computes the next reachable box, or null |
| `Homes.Home.GetPreviousReachable` | app/src/main/java/bzh/leroux/yannick/freeteuse/Home.java:254-272 | The loop over the registry computes the previous reachable box, or null |
| `Homes.Home.OnFreeboxDetected` | app/src/main/java/bzh/leroux/yannick/freeteuse/Home.java:178-201 | A known box becomes reachable and nothing else changes; a new one is coloured and appended |
| `Homes.Home.ConcealBoxes` | app/src/main/java/bzh/leroux/yannick/freeteuse/Home.java:144-174 | The preference becomes the records of the boxes, in order, and the registry is emptied |
| `Homes.Home.RecoverBox` | app/src/main/java/bzh/leroux/yannick/freeteuse/Home.java:84-96 | One turn of the recovery loop: keeps the box if it has an address, counts its colour, and moves the selection |
| `Homes.Home.DiscloseBoxes` | app/src/main/java/bzh/leroux/yannick/freeteuse/Home.java:122-130 | Replaces the registry by the boxes of the saved records, in order, and returns the selected one |
| `Activities.MainActivity.ConnectFreebox` | app/src/main/java/bzh/leroux/yannick/freeteuse/MainActivity.java:378-392 | The old active box loses focus and engine, the new one takes them; null changes nothing; the registry and the engines stay sound |
| `Activities.MainActivity.DisconnectFreebox` | app/src/main/java/bzh/leroux/yannick/freeteuse/MainActivity.java:395-404 | The active box loses its engine and is no longer active |
| `Activities.MainActivity.OnFreeboxStatus` | app/src/main/java/bzh/leroux/yannick/freeteuse/MainActivity.java:319-337 | mConnected becomes whether the status is "connected"; nothing else changes |
| `Activities.MainActivity.OnNextFreebox` | app/src/main/java/bzh/leroux/yannick/freeteuse/MainActivity.java:163-169 | Unless a macro plays, connects the next reachable box after the active one, if there is one, and throws if and only if no box is active then |
| `Activities.MainActivity.OnPreviousFreebox` | app/src/main/java/bzh/leroux/yannick/freeteuse/MainActivity.java:153-159 | Unless a macro plays, connects the previous reachable box before the active one, if there is one, and throws if and only if no box is active then |
| `Activities.MainActivity.OnFreeboxDetected` | app/src/main/java/bzh/leroux/yannick/freeteuse/MainActivity.java:304-315 | After the registry has taken the detection, connects the box it tells about, unless connected, and throws if and only if no box is active then |
| `Activities.MainActivity.OnPause` | app/src/main/java/bzh/leroux/yannick/freeteuse/MainActivity.java:97-103 | Saves and empties the registry, stops the macro player, then disconnects the active box; like every handler, it keeps the registry sound and the focus with the active box alone |
| `Activities.MainActivity.OnResume` | app/src/main/java/bzh/leroux/yannick/freeteuse/MainActivity.java:83-89 | Recovers the saved boxes and connects the selected one; without one nothing else changes; the macro player is a new one, and nothing throws |
| `Macros.StartKeepsInv` | app/src/main/java/bzh/leroux/yannick/freeteuse/MultiClicker.java:45-53 | Starting a macro on a player in any state establishes: a callback is queued if and only if there is an iterator |
| `Macros.CallbackIsAboutToRun` | app/src/main/java/bzh/leroux/yannick/freeteuse/MultiClicker.java:57-61 | A queued callback always finds an iterator that is not null |
| `Macros.PlayKeepsInv` | app/src/main/java/bzh/leroux/yannick/freeteuse/MultiClicker.java:57-88 | Over all plays, stopped from outside or not: the listener has received a prefix of the macro's key tokens, in order, and then one null per stop |
| `Macros.FullPlay` | app/src/main/java/bzh/leroux/yannick/freeteuse/MultiClicker.java:57-88 | A macro left to itself until it stops names exactly its key tokens, in order, and then one null |
| `Macros.StopsAfterItsTokens` | app/src/main/java/bzh/leroux/yannick/freeteuse/MultiClicker.java:57-79 | In every play without outside stops the player runs at most as many callbacks as the macro has tokens, and is still running if and only if it has run fewer |
| `Macros.RunsToItsEnd` | app/src/main/java/bzh/leroux/yannick/freeteuse/MultiClicker.java:63-72 | From every state of the player there is a play, of waiting and callbacks only, that stops it |
| `Macros.KeysWaitForDelays` | app/src/main/java/bzh/leroux/yannick/freeteuse/MultiClicker.java:63-67 | Started when stopped, it names no key earlier than the sum of the positive delays before that key |
| `Macros.RunTakesOneToken` | app/src/main/java/bzh/leroux/yannick/freeteuse/MultiClicker.java:57-79 | One turn, written out: a delay queues a callback exactly that much later, or at once when negative; a key is named now, with a callback at once; the end empties the queue and says null |
| `Macros.KeyIsNamed` | app/src/main/java/bzh/leroux/yannick/freeteuse/MultiClicker.java:69-73 | In every play, for every key token passed: the call whose place is the number of key tokens before it names it |
| `Macros.DelayPostpones` | app/src/main/java/bzh/leroux/yannick/freeteuse/MultiClicker.java:63-67 | Started when stopped: every key behind a delay of ms is named ms or more after the start |
| `Macros.DelaySeparates` | app/src/main/java/bzh/leroux/yannick/freeteuse/MultiClicker.java:63-67 | Started when stopped: two keys with a delay of ms between them are named ms or more apart |
| `Macros.DelaysAreKeptExactly` | app/src/main/java/bzh/leroux/yannick/freeteuse/MultiClicker.java:45-53 | For every state of the player: every macro started there keeps its delays in every play, if and only if no callback is queued, which is when the player was stopped |
| `Macros.RestartDoesNotWait` | app/src/main/java/bzh/leroux/yannick/freeteuse/MultiClicker.java:45-53 | An instance of its failing: a key after a delay of 9 is named at 5 |
| `Macros.MultiClicker.Start` | app/src/main/java/bzh/leroux/yannick/freeteuse/MultiClicker.java:45-53 | The player stands at the beginning of the new macro and has run its first token; the queue keeps what it had |
| `Macros.MultiClicker.Run` | app/src/main/java/bzh/leroux/yannick/freeteuse/MultiClicker.java:57-79 | Takes one token: a delay queues a callback later, a key is named and queues one now, the end stops |
| `Macros.MultiClicker.Stop` | app/src/main/java/bzh/leroux/yannick/freeteuse/MultiClicker.java:82-88 | Empties the queue, drops the iterator and says null |
| `Macros.MultiClicker.Stopped` | app/src/main/java/bzh/leroux/yannick/freeteuse/MultiClicker.java:91-94 | For a player that keeps its invariant: stopped if and only if no callback of it is in the handler's queue |
| `MacroPlays.MacroComesOut` | app/src/main/java/bzh/leroux/yannick/freeteuse/MainActivity.java:262-288 | Playing any macro on a connected box, under all interleavings with the engine's threads and timer, and at every moment: what the box has received and is still to receive is what was due before, then a press and a release for each key named so far that has a view, in order, then the keys of other listeners after the macro; all keys of the macro once it has run to its end |
| `MacroPlays.TagReachesBox` | app/src/main/java/bzh/leroux/yannick/freeteuse/MainActivity.java:279-283 | For the j-th key that the player has named, with a tag t: behind what was due before and two reports for each tagged name before it stand a press with the report id and code of t and its release with value 0, congruent to t as the casts of the native interface are and equal to it when in range |
| `MacroPlays.CallsComeOut` | app/src/main/cpp/Rcu.cpp:194-231 | In every run of an engine, what the box has received and is still to receive is what the calls of SendKeyPress and SendKeyRelease mean, in the order of the calls |
| `MacroPlays.DrainedMacro` | app/src/main/java/bzh/leroux/yannick/freeteuse/MainActivity.java:262-288 | After the join of the looper thread the box has received all of that |
| `MacroPlays.DueIsWhatWasSent` | app/src/main/cpp/Rcu.cpp:124-231 | In every state of the engine: reports sent, reports owed by the keys read, and the expansion of the keys queued and in hand are together the expansion of the keys sent |
| `MacroPlays.ClicksAlternate` | app/src/main/java/bzh/leroux/yannick/freeteuse/MainActivity.java:279-283 | These reports are press 1, release 1, press 2, release 2, ..., so equal keys are kept apart by a release |
| `MacroPlays.ReportsOfClicks` | app/src/main/cpp/Rcu.cpp:140-168 | A list of press-with-release keys means those press and release pairs and nothing else |
| `MacroPlays.RunIsFine` | app/src/main/java/bzh/leroux/yannick/freeteuse/MultiClicker.java:57-79 | A turn of the player together with its listener keeps player and engine in step |
| `Resolvers.EventKeepsInv` | app/src/main/java/bzh/leroux/yannick/freeteuse/sniffers/BonjourSniffer.java:38-58 | Every add and every completion keeps: at most one resolution outstanding, one whenever something waits, and added equals started then queued, in order |
| `Resolvers.SingleFlight` | app/src/main/java/bzh/leroux/yannick/freeteuse/sniffers/BonjourSniffer.java:26-59 | From a new queue on, over every sequence of discoveries and completions: at most one resolution outstanding, one whenever something waits, and what was asked for is what was started, then what waits, in order |
| `Resolvers.EverythingIsResolved` | app/src/main/java/bzh/leroux/yannick/freeteuse/sniffers/BonjourSniffer.java:44-58 | If resolutions keep completing, everything added is resolved, each once, in as many completions as were missing |
| `Resolvers.ResolverQueue.Add` | app/src/main/java/bzh/leroux/yannick/freeteuse/sniffers/BonjourSniffer.java:38-42 | One more service is asked for; it starts at once when none is in progress |
| `Resolvers.ResolverQueue.ResolveNext` | app/src/main/java/bzh/leroux/yannick/freeteuse/sniffers/BonjourSniffer.java:44-52 | Starts the oldest waiting service when none is in progress |
| `Resolvers.ResolverQueue.ResolutionReceived` | app/src/main/java/bzh/leroux/yannick/freeteuse/sniffers/BonjourSniffer.java:54-58 | One resolution is over; the oldest waiting one, if any, starts |
| `CheatCodes.PositionIsSuffix` | app/src/main/java/bzh/leroux/yannick/freeteuse/CheatCode.java:36-54 | For any secret and any stream, position p means that the last p tags are the first p of the secret |
| `CheatCodes.FiresAfterEntry` | app/src/main/java/bzh/leroux/yannick/freeteuse/CheatCode.java:45-48 | It fires only right after a complete entry of the secret |
| `CheatCodes.FiredEntriesDisjoint` | app/src/main/java/bzh/leroux/yannick/freeteuse/CheatCode.java:38-41 | Two entries that fire do not overlap |
| `CheatCodes.EntryFiresExactly` | app/src/main/java/bzh/leroux/yannick/freeteuse/CheatCode.java:43-51 | Entering the whole secret fires at its last tag if and only if no walk was under way before it |
| `CheatCodes.ForeignTagResets` | app/src/main/java/bzh/leroux/yannick/freeteuse/CheatCode.java:50-53 | After one tag outside the secret, entering the secret fires on its last tag and on none before |
| `CheatCodes.EntryCanBeMissed` | app/src/main/java/bzh/leroux/yannick/freeteuse/CheatCode.java:28-54 | The shipped secret, 0x221 0x18f 0x221 and the selector, fires when entered at first, and does not when 0x221 is pressed once too often before it |
| `CheatCodes.CheatCode.Discovered` | app/src/main/java/bzh/leroux/yannick/freeteuse/CheatCode.java:36-54 | Returns true if and only if this tag completes the secret in the stream of all tags so far |
| `Utf16.Pack` | app/src/main/java/bzh/leroux/yannick/freeteuse/MainActivity.java:238-244 | For every byte string the loop computes the sum of its little-endian 32-bit words modulo 2^32 |
| `Utf16.BytesMakeWords` | app/src/main/java/bzh/leroux/yannick/freeteuse/MainActivity.java:241-244 | The masked shifts sum the bytes as the words of the string, also past the fourth byte |
| `Utf16.KeyCodeValue` | app/src/main/java/bzh/leroux/yannick/freeteuse/MainActivity.java:238-248 | The key code written out: the character itself in the basic plane, else the high surrogate plus 65536 times the low one |
| `Utf16.KeyCodeDecodes` | app/src/main/java/bzh/leroux/yannick/freeteuse/MainActivity.java:238-244 | The key code of every Unicode scalar value decodes to it (sections 2.1 and 2.2 of RFC 2781) |
| `Utf16.KeyCodeInjective` | app/src/main/java/bzh/leroux/yannick/freeteuse/MainActivity.java:246-248 | Two characters never share a key code |
| `Utf16.SurrogatesSurvive` | app/src/main/java/bzh/leroux/yannick/freeteuse/MainActivity.java:241-244 | A key code exceeds 16 bits if and only if the character does, and then holds both surrogates, the high one in the low half |

## Left out

- RcuEngine.Rcu.Disconnect: is one thread's view; it asks for room in both pipes for all that is posted meanwhile, because no status thread reads in between; blocking writes and a reading thread are in `Protocol`.
- RcuEngine.Rcu.Connect: asks for room in the status pipe for all that is posted meanwhile; with less it blocks, which is in `Protocol`.
- RcuEngine.Rcu.JoinLooper: asks for the same room.
- RcuEngine.Rcu.SendKeyPress: asks for room in the pipe; the write that blocks on a full pipe is a step of its own in `Protocol`.
- RcuEngine.Rcu.SendKeyRelease: asks for room in the pipe, likewise.
- RcuEngine.Rcu.OnStatus: asks for room in the pipe, likewise.
- RcuEngine.Rcu.ReadStatus: asks for a message in the status pipe; a read of an empty pipe blocks, which is how `Protocol` models it.
- RcuEngine.StatusLoop: is stated from the moment the close marker is in the pipe; before that the loop waits for other threads, as in `Protocol`.
- Activities.MainActivity.ConnectFreebox: takes Freebox.disconnect as one action of the UI thread; what the other threads do meanwhile is in `Sessions`, and `SessionHandlers.HandlerDoes` shows that it makes no difference.
- Activities.MainActivity.OnPause: leaves out the Wifi watcher and the logger.
- Activities.MainActivity.OnNextFreebox: of the painting, only the exception is modelled; so for OnPreviousFreebox and OnFreeboxDetected.
- Activities.MainActivity.OnPreviousFreebox: of the painting, only the exception is modelled.
- Activities.MainActivity.OnFreeboxDetected: of the painting, only the exception is modelled.
- Freeboxes.Freebox.Connect: the engine is a handle and the status thread a flag there; what they do is in `Protocol`, `RcuEngine` and `Sessions`.
- Freeboxes.Freebox.Disconnect: likewise; an interrupted join, which the source logs, does not happen here.
- Freeboxes.Freebox.Equals: for a box without an address the source throws; no such box enters the registry, whose boxes all have one.
- Homes.Home.DiscloseBoxes: asks that no saved box with an address lacks a colour, on which the painter would throw; `Apps.ConcealKeepsRegistry` shows that no saved pool does.
- Homes.Home.RecoverBox: asks the same of the one box.
- Pipes.Pipe.Read: asks for a pointer in the pipe; a read of an empty pipe blocks, which is how `Protocol` models it. Read and write errors are not modelled.
- MacroPlays.MacroComesOut: the active box stays the same while the macro plays; the look-up of a view by key name and Integer.decode are a parameter.
- Utf16.Pack: KeyEvent.getUnicodeChar, with its combining-accent flag, and String.getBytes are library code; the bytes are a parameter.
- Macro text: split and Long.parseLong are library code; a macro is the list of its tokens.
- JSON text and SharedPreferences: the saved pool is a sequence of records.
- Overflow of the painter's counts and of handles and identities, which are unbounded here.
- The constructor and the destructor of Rcu as methods of the class: they are the first state and the last label of the protocol.
- The HID report descriptors, address parsing, pthread and pipe creation failures, and the JNI layer but for its casts and null checks.
- The descriptions of boxes, logging, Wifi, screen fitting, layouts, visibility, painting, and network discovery itself.
