# Serial-port framing core of xcFramework, in Dafny

This project models the sequential core of the xcFramework serial-port stack and proves
properties of the model:

- **Receive framing** (`PortReceiveThread`). A 16 KiB buffer with a write cursor takes each
  read. The thread looks for the last response frame head, or failing that the last request
  frame head. It cuts the data at that head and asks the configured length callback whether
  a whole frame is there. A complete frame is then either held as the "last response" or
  posted as a request, and possibly also held as the "last interrupt".
  - One poll is specified by the function `PortReceive.Read` over an abstract state `RxState`.
  - The polling loop is specified by `PortReceive.Run`.
  - The class `PortReceive.PortReceiveThread` does the work on a real array and cursor. Its
    methods are proved to follow those functions.
  - Module `PortReceiveProperties` proves the behaviour case by case, plus the invariants the
    loop keeps.
  - Module `ReceiveExamples` proves what the loop does on concrete bytes, using a reference
    search for frame heads.
- **Reply cache** (`PortReceiveCache`). Two independent frame lists, "Response" and "Result".
  They support append, first-occurrence removal, clear and a filtered first-match query.
  Frames are compared by identity, as Java compares `byte[]` references.
- **Port session** (`PortManager`):
  - the open flag;
  - the send executor, modelled as an optional `Executor(generation, isShutdown)` value;
  - the null/shut-down gate of `send`;
  - `clearSend`;
  - the request-listener list and the fan-out of received requests to it.
- **Bean utility** (`XCBeanUtil`):
  - the rule that derives accessor names;
  - which declared fields `getFieldList` keeps, and in what order;
  - the guards and superclass walks of `invokeGetMethod` and `invokeSetMethod`.

  Classes are abstract values: a list of declared fields, or a set of field names with
  the outcome of invoking each method by name.
- **USB port parameters** (`UsbPortParam`). The defaults (8 data bits, 1 stop bit, no parity),
  how the seven-argument constructor normalises its arguments, and the setters and getters.

Behaviour of the code that the model keeps as it is:

- The length check at `PortReceiveThread.java:76` compares the number of buffered bytes with
  the *number* of configured heads, not with any head's length.
- That check dereferences the response head list even when only request heads are
  configured. A null response list then throws on every non-empty read, which stops the
  receive loop (`PortReceive.LengthGuard`, `PortReceiveProperties.NullHeadListThrows`).
- Without any head configured, `frameHeadsType` is never set. A complete frame then only
  resets the buffer: nothing is held and nothing is posted
  (`PortReceiveProperties.UntypedFrameIsDropped`, `PortReceiveProperties.NoHeadsNeverDelivers`).
- One might expect the posted frames not to depend on how the byte stream is split into
  reads. The code does not behave that way. A read holding
  two request frames emits only the one after the last head, while the same bytes in two
  reads emit both (`ReceiveExamples.ChunkingChangesFrames`). The model follows the code.
- `open` does not stop a previous receive thread or executor before it installs new ones.

## Model

| member | source | states |
|---|---|---|
| Lists.IndexOf | app/src/main/java/com/xc/framework/port/core/PortReceiveCache.java:53 | the position found holds the element and no earlier position does |
| Lists.RemoveFirst | app/src/main/java/com/xc/framework/port/core/PortReceiveCache.java:52-54 | `List.remove(Object)`: removing an absent element changes nothing; removing a present one shortens the list by exactly one |
| Lists.RemoveFirstAt | app/src/main/java/com/xc/framework/port/core/PortManager.java:205-209 | removal deletes exactly the first occurrence and keeps everything before and after it in order |
| PortReceive.LengthGuard | app/src/main/java/com/xc/framework/port/core/PortReceiveThread.java:76 | the guard throws exactly when the response head list is null, or when it is too short and the request list is null; otherwise it passes exactly when the byte count reaches the number of response heads or of request heads |
| PortReceive.HeadsConfigured | app/src/main/java/com/xc/framework/port/core/PortReceiveThread.java:75 | the head logic runs exactly when some head list is non-null and non-empty, a null list counting as empty; `UntypedFrameIsDropped` and `NoHeadsNeverDelivers` follow what happens otherwise |
| PortReceive.FrameLength | app/src/main/java/com/xc/framework/port/core/PortReceiveThread.java:108 | without a callback the reported length is 0; `IncompleteKeepsBytes` and `FrameOf` use the callback's length |
| PortReceive.Complete | app/src/main/java/com/xc/framework/port/core/PortReceiveThread.java:109 | a complete frame has a positive length no longer than the non-empty slice, and without a callback no frame is ever complete |
| PortReceive.IsInterrupt | app/src/main/java/com/xc/framework/port/core/PortReceiveThread.java:117 | without a callback no request is an interrupt; `RequestFrameIsEmitted` says the interrupt holder is set exactly when this holds |
| PortReceive.Cleared | app/src/main/java/com/xc/framework/port/core/PortReceiveThread.java:133-137 | `reset` empties the buffer and both holders and keeps the type tag and the posted requests |
| PortReceive.Deliver | app/src/main/java/com/xc/framework/port/core/PortReceiveThread.java:104-126 | `result` either keeps the buffer or empties it, posts at most one request, and leaves the type tag unchanged |
| PortReceive.Read | app/src/main/java/com/xc/framework/port/core/PortReceiveThread.java:69-97 | one poll keeps the buffer within 16 KiB and only ever appends to the posted requests, at most one per poll |
| PortReceive.Run | app/src/main/java/com/xc/framework/port/core/PortReceiveThread.java:43-53 | the polling loop keeps the buffer within capacity and posts at most one request per poll, only by appending |
| PortReceive.PortReceiveThread.constructor | app/src/main/java/com/xc/framework/port/core/PortReceiveThread.java:34-39 | a fresh 16 KiB buffer, cursor 0, no holders, no requests, not yet running |
| PortReceive.PortReceiveThread.StartThread | app/src/main/java/com/xc/framework/port/core/PortManager.java:109 | the thread is marked running and nothing else changes |
| PortReceive.PortReceiveThread.StopThread | app/src/main/java/com/xc/framework/port/core/PortManager.java:83 | the thread is marked stopped and nothing else changes |
| PortReceive.PortReceiveThread.GetResponseDatas | app/src/main/java/com/xc/framework/port/core/PortReceiveThread.java:144-146 | returns the response holder and changes nothing |
| PortReceive.PortReceiveThread.GetInterruptDatas | app/src/main/java/com/xc/framework/port/core/PortReceiveThread.java:153-155 | returns the interrupt holder and changes nothing |
| PortReceive.PortReceiveThread.Reset | app/src/main/java/com/xc/framework/port/core/PortReceiveThread.java:133-137 | the cursor returns to 0 and both holders become null; the type tag and the posted requests are kept |
| PortReceive.PortReceiveThread.Result | app/src/main/java/com/xc/framework/port/core/PortReceiveThread.java:104-126 | the new array, cursor and holders are exactly what `Deliver` specifies for the old state |
| PortReceive.PortReceiveThread.ReadDatas | app/src/main/java/com/xc/framework/port/core/PortReceiveThread.java:69-97 | the bytes are copied into the array at the cursor; the new state, and whether the poll threw, are exactly `Read` of the old state |
| PortReceive.PortReceiveThread.OnRun | app/src/main/java/com/xc/framework/port/core/PortReceiveThread.java:43-53 | a running loop ends in `Run` of the old state, and is stopped exactly when some poll threw; a stopped thread changes nothing |
| PortReceiveProperties.EmptyReadChangesNothing | app/src/main/java/com/xc/framework/port/core/PortReceiveThread.java:70-71 | a null or empty read leaves cursor, buffer, holders and requests as they were, and the loop goes on |
| PortReceiveProperties.OverflowThrows | app/src/main/java/com/xc/framework/port/core/PortReceiveThread.java:72 | a read that does not fit in 16 KiB throws before anything is copied, which stops the loop |
| PortReceiveProperties.ReadAppendsOrResets | app/src/main/java/com/xc/framework/port/core/PortReceiveThread.java:72-74 | after a read that fits, the buffer is the old bytes followed by the read ones, so the cursor grew by the read length, or it was reset |
| PortReceiveProperties.NullHeadListThrows | app/src/main/java/com/xc/framework/port/core/PortReceiveThread.java:76 | when the guard dereferences a null head list, the poll throws and keeps the appended bytes |
| PortReceiveProperties.GuardFailsKeepsBytes | app/src/main/java/com/xc/framework/port/core/PortReceiveThread.java:76-92 | when the guard fails, the appended bytes are kept and nothing is searched, reset or posted, and the loop goes on |
| PortReceiveProperties.ResponseHeadsFirst | app/src/main/java/com/xc/framework/port/core/PortReceiveThread.java:78-84 | a response head found gives type 1; only when none is found are request heads searched, with type 2 |
| PortReceiveProperties.DesyncResets | app/src/main/java/com/xc/framework/port/core/PortReceiveThread.java:86-87 | no head of either kind: cursor 0, both holders null, nothing posted |
| PortReceiveProperties.SliceOf | app/src/main/java/com/xc/framework/port/core/PortReceiveThread.java:89 | the slice passed to `result` is a suffix of the buffer, starting at the last head found |
| PortReceiveProperties.IncompleteKeepsBytes | app/src/main/java/com/xc/framework/port/core/PortReceiveThread.java:108-109 | a length that is not positive or exceeds the slice leaves the bytes, holders and requests for the next read |
| PortReceiveProperties.FrameOf | app/src/main/java/com/xc/framework/port/core/PortReceiveThread.java:111 | the frame is a non-empty prefix of the slice, of the callback's length |
| PortReceiveProperties.ResponseFrameIsHeld | app/src/main/java/com/xc/framework/port/core/PortReceiveThread.java:110-114 | a complete response frame empties the buffer and becomes the response holder; the interrupt holder is null and nothing is posted |
| PortReceiveProperties.RequestFrameIsEmitted | app/src/main/java/com/xc/framework/port/core/PortReceiveThread.java:115-123 | a complete request frame is always posted, and becomes the interrupt holder exactly when `onInterrupt` says so; the response holder is null |
| PortReceiveProperties.UntypedFrameIsDropped | app/src/main/java/com/xc/framework/port/core/PortReceiveThread.java:93-94 | with no heads and no type tag, a complete frame only resets the buffer |
| PortReceiveProperties.InitialConsistent | app/src/main/java/com/xc/framework/port/core/PortReceiveThread.java:34-39 | the initial state satisfies the holder invariant |
| PortReceiveProperties.DeliverKeepsConsistent | app/src/main/java/com/xc/framework/port/core/PortReceiveThread.java:104-126 | `result` keeps the holder invariant: the holders are never both set, held frames are non-empty, and a held interrupt is the last posted request |
| PortReceiveProperties.ReadKeepsConsistent | app/src/main/java/com/xc/framework/port/core/PortReceiveThread.java:69-97 | every poll keeps the holder invariant |
| PortReceiveProperties.RunKeepsConsistent | app/src/main/java/com/xc/framework/port/core/PortReceiveThread.java:43-53 | the whole polling loop keeps the holder invariant |
| PortReceiveProperties.NoHeadsNeverDelivers | app/src/main/java/com/xc/framework/port/core/PortReceiveThread.java:93-94 | without heads, the loop started from the initial tag posts nothing and never sets a holder |
| PortReceiveProperties.RunStopsAtFault | app/src/main/java/com/xc/framework/port/core/PortReceiveThread.java:44-51 | the first poll that throws ends the loop: later reads are never processed |
| ReceiveExamples.LastHeadBelow | app/src/main/java/com/xc/framework/port/core/PortReceiveThread.java:79 | reference head search: the result is a position where a head occurs with none after it, or -1 when none occurs |
| ReceiveExamples.LastFrameHeadPosition | app/src/main/java/com/xc/framework/port/core/PortReceiveThread.java:83 | the reference search meets the contract assumed of `FrameHeadUtil`: negative, or an offset inside the data |
| ReceiveExamples.LastHeadWins | app/src/main/java/com/xc/framework/port/core/PortReceiveThread.java:79-90 | `AA 55 01 AA 55 03 01 02 03` read at once yields the response `AA 55 03 01 02 03`; the partial frame before the last head is discarded |
| ReceiveExamples.ChunkingChangesFrames | app/src/main/java/com/xc/framework/port/core/PortReceiveThread.java:86-91 | the posted frames depend on how the stream is split into reads |
| ReceiveCache.FirstAccepted | app/src/main/java/com/xc/framework/port/core/PortReceiveCache.java:128-132 | the position found is accepted by the filter and no earlier one is; it is the list length when none is |
| ReceiveCache.Accepts | app/src/main/java/com/xc/framework/port/core/PortReceiveCache.java:129 | a null filter accepts every entry |
| ReceiveCache.Lookup | app/src/main/java/com/xc/framework/port/core/PortReceiveCache.java:127-134 | a non-null answer is an entry of the list that the filter accepts, and the answer is null when the filter accepts no entry; `FirstAcceptedIs`, `UnfilteredLookupIsOldest` and `LookupStableUnderAppend` pin down which entry |
| ReceiveCache.FirstAcceptedIs | app/src/main/java/com/xc/framework/port/core/PortReceiveCache.java:128-132 | "accepted, and nothing before it is" pins down exactly one position |
| ReceiveCache.UnfilteredLookupIsOldest | app/src/main/java/com/xc/framework/port/core/PortReceiveCache.java:129 | without a filter the query returns the oldest entry, and null for an empty list |
| ReceiveCache.LookupStableUnderAppend | app/src/main/java/com/xc/framework/port/core/PortReceiveCache.java:128-132 | appending entries never changes what an earlier successful query found |
| ReceiveCache.PortReceiveCache.constructor | app/src/main/java/com/xc/framework/port/core/PortReceiveCache.java:33-36 | both lists start empty |
| ReceiveCache.PortReceiveCache.ListOf | app/src/main/java/com/xc/framework/port/core/PortReceiveCache.java:121-125 | `Response` selects the response list and `Result` the result list, as `getReceiveDatas` and `removeReceiveDatas` do |
| ReceiveCache.PortReceiveCache.AddResponse | app/src/main/java/com/xc/framework/port/core/PortReceiveCache.java:43-45 | the frame is appended to the response list; the result list is untouched |
| ReceiveCache.PortReceiveCache.RemoveResponse | app/src/main/java/com/xc/framework/port/core/PortReceiveCache.java:52-54 | the first identical frame is removed from the response list only |
| ReceiveCache.PortReceiveCache.ClearResponseList | app/src/main/java/com/xc/framework/port/core/PortReceiveCache.java:70-72 | the response list is emptied; the result list is untouched |
| ReceiveCache.PortReceiveCache.AddResult | app/src/main/java/com/xc/framework/port/core/PortReceiveCache.java:79-81 | the frame is appended to the result list; the response list is untouched |
| ReceiveCache.PortReceiveCache.RemoveResult | app/src/main/java/com/xc/framework/port/core/PortReceiveCache.java:88-90 | the first identical frame is removed from the result list only |
| ReceiveCache.PortReceiveCache.ClearResultList | app/src/main/java/com/xc/framework/port/core/PortReceiveCache.java:106-108 | the result list is emptied; the response list is untouched |
| ReceiveCache.PortReceiveCache.Clear | app/src/main/java/com/xc/framework/port/core/PortReceiveCache.java:115-118 | both lists are emptied |
| ReceiveCache.PortReceiveCache.GetReceiveDatas | app/src/main/java/com/xc/framework/port/core/PortReceiveCache.java:120-135 | null for an unknown type; otherwise the first entry of that list, in insertion order, that the filter accepts, or null; neither list changes |
| ReceiveCache.PortReceiveCache.RemoveReceiveDatas | app/src/main/java/com/xc/framework/port/core/PortReceiveCache.java:142-150 | a null or empty frame, or an unknown type, changes nothing; otherwise only the named list loses its first identical frame |
| ReceiveCache.PortReceiveCacheHolder.constructor | app/src/main/java/com/xc/framework/port/core/PortReceiveCache.java:14 | no cache exists before the first `getInstance` |
| ReceiveCache.PortReceiveCacheHolder.GetInstance | app/src/main/java/com/xc/framework/port/core/PortReceiveCache.java:21-26 | the first call creates an empty cache and stores it; every later call returns the stored one |
| ReceiveCache.PortReceiveCacheHolder.GetInstanceTwice | app/src/main/java/com/xc/framework/port/core/PortReceiveCache.java:21-26 | two successive calls return the same cache |
| PortManagement.NonNull | app/src/main/java/com/xc/framework/port/core/PortManager.java:99-104 | the listeners called are exactly the non-null entries, and there are no more of them than entries |
| PortManagement.Accepting | app/src/main/java/com/xc/framework/port/core/PortManager.java:147 | the gate is closed when there is no executor or it is shut down, and open for a live one; `Send`, `SendAfterClose` and `SendAfterClearSend` rely on it |
| PortManagement.NonNullCounts | app/src/main/java/com/xc/framework/port/core/PortManager.java:100-103 | a listener is called once per occurrence in the list, so a duplicate is called twice |
| PortManagement.NonNullAppend | app/src/main/java/com/xc/framework/port/core/PortManager.java:196 | appending a listener appends one call at the end of the fan-out, or none for null |
| PortManagement.PortManager.constructor | app/src/main/java/com/xc/framework/port/core/PortManager.java:24-27 | an empty listener list, a live executor, no receive thread, port closed |
| PortManagement.PortManager.InitPool | app/src/main/java/com/xc/framework/port/core/PortManager.java:48-50 | a new live executor replaces the old one |
| PortManagement.PortManager.StartReceivedThread | app/src/main/java/com/xc/framework/port/core/PortManager.java:95-110 | a fresh receive thread for the configuration, in its initial state and running |
| PortManagement.PortManager.Open | app/src/main/java/com/xc/framework/port/core/PortManager.java:58-67 | without a port or a configuration nothing changes; otherwise the open outcome becomes the flag, and success installs a fresh live executor, counted by the pool count, and a started receive thread; without success no executor is made; the result is the flag |
| PortManagement.PortManager.Close | app/src/main/java/com/xc/framework/port/core/PortManager.java:74-88 | returns true; the port is closed, the executor and the receive thread are gone, and the old thread is stopped with the rest of its state unchanged; the pool count and the listener list are unchanged |
| PortManagement.PortManager.Send | app/src/main/java/com/xc/framework/port/core/PortManager.java:146-179 | with no live executor, null and nothing submitted; otherwise one job is submitted, and the result is the worker's for a blocking call and null otherwise |
| PortManagement.PortManager.SendBlocking | app/src/main/java/com/xc/framework/port/core/PortManager.java:119-121 | the blocking overload submits with `what` = -1 and returns the worker's result, or null at the gate |
| PortManagement.PortManager.SendAsync | app/src/main/java/com/xc/framework/port/core/PortManager.java:132-134 | the non-blocking overload submits one job when the gate is open, and returns nothing |
| PortManagement.PortManager.ClearSend | app/src/main/java/com/xc/framework/port/core/PortManager.java:181-187 | afterwards there is a live executor that is new: the pool count grows by one and the executor carries the new count |
| PortManagement.PortManager.SetOnReceiveRequestListener | app/src/main/java/com/xc/framework/port/core/PortManager.java:194-198 | the listener is appended, duplicates and null included |
| PortManagement.PortManager.RemoveOnReceiveRequestListener | app/src/main/java/com/xc/framework/port/core/PortManager.java:205-209 | the first occurrence is removed; an absent listener changes nothing |
| PortManagement.PortManager.ClearOnReceiveRequestListener | app/src/main/java/com/xc/framework/port/core/PortManager.java:216-220 | the listener list is emptied |
| PortManagement.PortManager.OnRequest | app/src/main/java/com/xc/framework/port/core/PortManager.java:98-106 | one `onRequest` call per non-null entry, in list order, each with the request bytes |
| PortManagement.SendAfterClose | app/src/main/java/com/xc/framework/port/core/PortManager.java:146-149 | every send after `close` returns null and submits nothing |
| PortManagement.ClearSendTwice | app/src/main/java/com/xc/framework/port/core/PortManager.java:181-187 | two successive `clearSend` calls install two different live executors |
| PortManagement.SendAfterClearSend | app/src/main/java/com/xc/framework/port/core/PortManager.java:181-187 | after `clearSend` a send passes the gate: it is submitted and returns the worker's result |
| BeanUtil.ToUpperCase | app/src/main/java/com/xc/framework/util/XCBeanUtil.java:137 | lower-case letters map to their upper-case forms and every other character is kept |
| BeanUtil.IsUpperCase | app/src/main/java/com/xc/framework/util/XCBeanUtil.java:139 | no character that `ToUpperCase` maps counts as upper case |
| BeanUtil.KeepsCase | app/src/main/java/com/xc/framework/util/XCBeanUtil.java:138-139 | only a name of at least two characters keeps its case, and never one whose second character is a lower-case letter |
| BeanUtil.AccessorName | app/src/main/java/com/xc/framework/util/XCBeanUtil.java:136-148 | null for an empty name; otherwise the prefix, then the first character upper-cased unless the second character is upper case, then the rest of the name unchanged |
| BeanUtil.AccessorRoundTrip | app/src/main/java/com/xc/framework/util/XCBeanUtil.java:137-142 | decapitalising the accessor suffix gives back the field name exactly when the name does not begin with an upper-case letter followed by one that is not |
| BeanUtil.GetterSetterAgree | app/src/main/java/com/xc/framework/util/XCBeanUtil.java:161-166 | getter and setter names differ only in their prefix |
| BeanUtil.BeanOf | app/src/main/java/com/xc/framework/util/XCBeanUtil.java:48-65 | the bean carries the field's name (empty for null), its alias annotation's value (none without one) and its key-id and unique flags |
| BeanUtil.AdmittedName | app/src/main/java/com/xc/framework/util/XCBeanUtil.java:45 | `TAG`, `serialVersionUID` and any name containing `$` are refused |
| BeanUtil.Kept | app/src/main/java/com/xc/framework/util/XCBeanUtil.java:44-47 | an ignored field is never kept, and a kept one has an admitted name |
| BeanUtil.KeptOf | app/src/main/java/com/xc/framework/util/XCBeanUtil.java:38-47 | a class contributes at most one bean per declared field; `KeptOfMembers` says exactly which |
| BeanUtil.FieldList | app/src/main/java/com/xc/framework/util/XCBeanUtil.java:34-74 | no class gives no beans and a class without superclass gives exactly its own kept fields; `OwnFieldsFirst` and `FieldListAdmitted` give order and membership for longer chains |
| BeanUtil.KeptOfMembers | app/src/main/java/com/xc/framework/util/XCBeanUtil.java:44-47 | a bean comes from a class exactly when that class declares a non-ignored field with an admitted name that it describes |
| BeanUtil.FieldListAdmitted | app/src/main/java/com/xc/framework/util/XCBeanUtil.java:45 | no listed bean is named `TAG` or `serialVersionUID` or contains `$`, and every listed bean comes from one class of the chain |
| BeanUtil.OwnFieldsFirst | app/src/main/java/com/xc/framework/util/XCBeanUtil.java:34-74 | the class's own fields come first, in declaration order, then those of its superclasses |
| BeanUtil.GetFieldList | app/src/main/java/com/xc/framework/util/XCBeanUtil.java:29-79 | null for a null class; otherwise the kept fields of the whole chain, class first |
| BeanUtil.GetGetMethod | app/src/main/java/com/xc/framework/util/XCBeanUtil.java:135-149 | a getter is found exactly when the class exists, the name is non-empty and the class has the method named by the accessor rule with prefix `get`; the one found is that method |
| BeanUtil.IsEmpty | app/src/main/java/com/xc/framework/util/XCBeanUtil.java:183 | a null or empty name counts as empty and a non-empty one does not; `InvokeGetMethod` and `InvokeSetMethod` return at once for an empty name |
| BeanUtil.GetSetMethod | app/src/main/java/com/xc/framework/util/XCBeanUtil.java:158-173 | a setter is found exactly when the class exists, the name is non-empty, the class itself declares the field and it has the method named by the accessor rule with prefix `set`; the one found is that method |
| BeanUtil.GetterStop | app/src/main/java/com/xc/framework/util/XCBeanUtil.java:186-190 | the getter walk passes every class whose getter gave null and stops at the first that did not |
| BeanUtil.SetterStop | app/src/main/java/com/xc/framework/util/XCBeanUtil.java:211-215 | the setter walk stops at the first class that has a setter, or runs off the chain |
| BeanUtil.InvokeGetMethod | app/src/main/java/com/xc/framework/util/XCBeanUtil.java:182-197 | null for a null object or an empty name; otherwise the value of the first getter up the chain that does not return null, or null when one is missing, throws, or the chain ends |
| BeanUtil.InvokeSetMethod | app/src/main/java/com/xc/framework/util/XCBeanUtil.java:207-222 | true without acting for a null object, an empty name or a null value; otherwise false exactly when no class up the chain has the setter or the setter found throws |
| UsbPort.NonNegativeOr | app/src/main/java/com/xc/framework/port/usb/UsbPortParam.java:46-49 | a non-negative argument is kept and a negative one falls back |
| UsbPort.NormalFormat | app/src/main/java/com/xc/framework/port/usb/UsbPortParam.java:47-49 | each format value is kept when non-negative and becomes its default (8, 1, 0) otherwise |
| UsbPort.NormalBaudrate | app/src/main/java/com/xc/framework/port/usb/UsbPortParam.java:46 | a non-negative baud rate is kept and a negative one becomes 0 |
| UsbPort.NormalFormatNonNegative | app/src/main/java/com/xc/framework/port/usb/UsbPortParam.java:47-49 | after normalisation no format value is negative |
| UsbPort.NormalFormatIdempotent | app/src/main/java/com/xc/framework/port/usb/UsbPortParam.java:46-49 | normalising twice is normalising once, and the defaults are left as they are |
| UsbPort.NegativeGivesDefaults | app/src/main/java/com/xc/framework/port/usb/UsbPortParam.java:23-31 | all-negative arguments give exactly the defaults 8, 1 and 0 |
| UsbPort.UsbPortParam.constructor | app/src/main/java/com/xc/framework/port/usb/UsbPortParam.java:34-37 | the device and the baud rate as given, unclamped, with the default format |
| UsbPort.UsbPortParam.WithLookup | app/src/main/java/com/xc/framework/port/usb/UsbPortParam.java:39-42 | the device found by the lookup and the baud rate as given, with the default format |
| UsbPort.UsbPortParam.Normalised | app/src/main/java/com/xc/framework/port/usb/UsbPortParam.java:44-50 | the device found; the baud rate and the format normalised |
| UsbPort.UsbPortParam.GetUsbDevice | app/src/main/java/com/xc/framework/port/usb/UsbPortParam.java:52-54 | returns the stored device |
| UsbPort.UsbPortParam.SetUsbDevice | app/src/main/java/com/xc/framework/port/usb/UsbPortParam.java:56-58 | only the device changes |
| UsbPort.UsbPortParam.LookUpUsbDevice | app/src/main/java/com/xc/framework/port/usb/UsbPortParam.java:59-61 | only the device changes, to the one the lookup found |
| UsbPort.UsbPortParam.GetBaudrate | app/src/main/java/com/xc/framework/port/usb/UsbPortParam.java:62-64 | returns the stored baud rate |
| UsbPort.UsbPortParam.SetBaudrate | app/src/main/java/com/xc/framework/port/usb/UsbPortParam.java:66-68 | only the baud rate changes, to the value as given |
| UsbPort.UsbPortParam.GetDataBits | app/src/main/java/com/xc/framework/port/usb/UsbPortParam.java:70-72 | returns the stored data bits |
| UsbPort.UsbPortParam.SetDataBits | app/src/main/java/com/xc/framework/port/usb/UsbPortParam.java:74-76 | only the data bits change |
| UsbPort.UsbPortParam.GetStopBits | app/src/main/java/com/xc/framework/port/usb/UsbPortParam.java:78-80 | returns the stored stop bits |
| UsbPort.UsbPortParam.SetStopBits | app/src/main/java/com/xc/framework/port/usb/UsbPortParam.java:82-84 | only the stop bits change |
| UsbPort.UsbPortParam.GetParity | app/src/main/java/com/xc/framework/port/usb/UsbPortParam.java:86-88 | returns the stored parity |
| UsbPort.UsbPortParam.SetParity | app/src/main/java/com/xc/framework/port/usb/UsbPortParam.java:90-92 | only the parity changes |
| UsbPort.SetThenGetDataBits | app/src/main/java/com/xc/framework/port/usb/UsbPortParam.java:70-76 | after setting the data bits the getter returns that value, and the other fields are unchanged |
| UsbPort.SetThenGetBaudrate | app/src/main/java/com/xc/framework/port/usb/UsbPortParam.java:62-68 | after setting the baud rate the getter returns that value, and the device and format are unchanged |
| UsbPort.SetThenGetStopBits | app/src/main/java/com/xc/framework/port/usb/UsbPortParam.java:78-84 | after setting the stop bits the getter returns that value, and the other fields are unchanged |
| UsbPort.SetThenGetParity | app/src/main/java/com/xc/framework/port/usb/UsbPortParam.java:86-92 | after setting the parity the getter returns that value, and the other fields are unchanged |
| UsbPort.SetThenGetUsbDevice | app/src/main/java/com/xc/framework/port/usb/UsbPortParam.java:52-58 | after setting the device the getter returns it, and the baud rate and format are unchanged |

## Left out

- Threads and timing. `Thread.sleep`, `setDaemon` and thread start-up are not modelled. The
  `Handler` hop from `sendMessage(0x123, ...)` to `onRequest` is modelled as appending the
  frame to the sequence `requests` of the receive thread. The fan-out over listeners is the
  separate method `PortManager.OnRequest`.
- `FrameHeadUtil` is not part of this model. `getLastFrameHeadPosition` is a function of the
  configuration, assumed to return a negative value or an offset inside the data.
  `splitDataByLastFrameHead` is taken to return the suffix from that offset.
- `PortParam` is not part of this model beyond the head lists, the head search and the two
  callbacks that the receive loop reads.
- `IPort`. `readPort` becomes the sequence of reads given to `OnRun` (None stands for null).
  `openPort` becomes the outcome parameter of `Open`. `closePort` has no modelled effect.
- `getIPort()` and `getPortParam()` are abstract methods, modelled as fixed values of a
  `PortManager`.
- `PortSendCallable` is not part of this model. The same goes for the `Future`, timeouts and
  interrupt handling of a send, and for the `receiveType` and callback arguments of `send`.
  The delivered outcome of a blocking send is a parameter.
- Exceptions from `readPort` or from the callbacks are not modelled. Nor is an exception from
  `openPort`, which `open` does not catch and which would reach its caller. The throws that are
  modelled are the `arraycopy` overflow and the null dereference at
  `PortReceiveThread.java:76`.
- The `CopyOnWriteArrayList` thread safety of the cache is not modelled. The aliasing of the
  live lists returned by `getResponseList` and `getResultList` is not modelled either;
  `ListOf` reads them.
- `Log.i` and the hex dumps are not modelled.
- Java reflection is not modelled. Field records and method-lookup maps stand in for
  `getDeclaredFields`, `getDeclaredField`, `getMethod`, `invoke` and the annotations. The
  setter's parameter type and `setAccessible` are abstracted away.
- BeanUtil.ToUpperCase: maps only the letters a to z, and `IsUpperCase` only recognises A to
  Z. Java's `toUpperCase(Locale.ENGLISH)` and `Character.isUpperCase` also cover non-ASCII
  letters.
- `XCStringUtil` is not part of this model. `isEmpty` is taken to mean null or of length 0.
- `UsbPortFinder` and `UsbDevice` are not part of this model. The device found for a vendor
  and product id is a parameter, and a device is an identity.
- Java `int` is 32-bit, but the model uses unbounded integers. No modelled arithmetic can
  exceed the 32-bit range: the cursor is bounded by 16384.
