# QSCore, verified

A Dafny model of the parts of QSCore that carry its meaning: the converter from CUDA-Q's QIR
to OpenQASM 2.0, the entanglement report, the debug adapter's locks, queues, codec, framing
and session, the stepping debugger with its source maps, and the two Python services that
rewrite OpenQASM text. `dafny verify dfyconfig.toml` checks everything.

| files | what they model |
|---|---|
| Complex, Qasm, Probes, CudaQBridge, Translation, Unfaithful, Operands | the converter, a semantics for the QIR calls and for the emitted lines, and the proof that they agree |
| Entanglement | single-qubit entropies of a state vector |
| RWMutex, Socket | the reader/writer lock and the socket it guards |
| Codec | schema-directed coding between values and JSON trees |
| Transport, ContentStream, Framing, Buffered | message framing over any transport, and over a StringBuffer in particular |
| Channel, Session | the blocking queues and the session's threads |
| Debugger, SourceLines, SourceMap | stepping, continuing, counting lines, and the tables from lines to gates |
| Chunks | cutting a circuit text to a token budget |
| Optimizer, DeferredMeasure, ExactMoves | moving measurements behind the optimised gates |
| Text, Basics | string helpers, and definitions several components share |

How the models are built:

- A quantum state maps bit strings of any length to pairs of reals. An angle is given by the
  cosine and sine of its half; cos(pi/4), cos(pi/8) and sin(pi/8) are any reals with the
  defining property. A measurement takes its outcome from a stream and keeps the unnormalised
  branch, so a statement for all streams covers every branch.
- Code that several threads run is a machine whose steps are single statements; condition
  variables may wake without a notification. Code that one thread runs is a method with the
  source's loops, tied to a function about which the properties are proved.
- Doubles are exact reals, `sqrt` is any function whose square gives its argument back,
  `log2` is any function, and what the entropies tell is proved for those with the laws of a
  base-two logarithm; a tokenizer is any function from lines to numbers, and a transport may
  return any positive number of the bytes wanted.
- A schema is a datatype; a struct that extends another is the fields of its base followed by
  its own. Integers are 64 bits wide where they are stored, and unbounded in JSON.

Where the code does not do what its names or comments say, the model follows the code, and
the exact condition under which it does is proved:

- `u3` with the adjoint suffix is emitted unadjointed, the controlled adjoint of `sdg` and
  `tdg` is emitted unadjointed, and an operation under a name the loop does not know, such as
  a direct `__ctl` call, is passed over: `Unfaithful.FaithfulExactly`.
- `isOpen` on a socket with a pending error overwrites the descriptor without closing it:
  `Socket.LostExactly`, `Socket.IsOpenCanDrop`.
- An unset optional struct without fields is read back as set: `Codec.RoundTrip`.
- A zero-length frame leaves its blank line in the stream, which ends a session that closes on
  invalid data: `Framing.CloseReadsAll`. Through a `StringBuffer` its empty piece also reads as
  an end of stream, so a message behind it comes late or never: `Buffered.Transmit`.
- Closing a `Pipe` strands the bytes still queued: `Channel.ClosingStrands`,
  `Channel.PipeStrands`.
- A first line too long for its chunk makes the splitter emit a chunk of bare headers:
  `Chunks.GreedyIsSound`, `Chunks.WithinBudget`.
- Moving a measurement behind a line that changes what was measured, or hangs on it, changes
  the meaning: `ExactMoves.TwoLinesExactly`.
- After the sequence counter wraps, a request that meets a waiting handler of the same number
  goes out without one of its own: `Session.PutInstalls`, `Session.WrapOrphans`.
- A request that cannot be serialized leaves its response handler behind: `Session.AskFails`.
- The reader drops a NUL byte at the end of the blanks or digits of a header:
  `Framing.OnlyAnnounced`.
- The OpenQASM source map numbers the lines left after blank and `#` lines are gone, while
  stepping looks it up by the line of the file: `SourceMap.BucketsOfFile`. An operation whose
  name begins with a word such as `gate` is not counted, and the body of a definition over
  several lines is: `SourceMap.PassiveWordHides`, `SourceMap.TableIsCircuits`.
- In line mode only lines that are not empty count, so Continue misses breakpoints near the end
  of a file with empty lines: `Debugger.ContinueCoversFile`, `Debugger.EmptyLineHidesLast`.
- A line of several instructions runs only one of them when it is stepped over:
  `Debugger.AllGatesRun`.

## Model

| member | source | states |
|---|---|---|
| Translation.TranslationPreservesMeaning | processors/CudaQBridge.h:141-193 | Every list of well-formed, supported and faithful QIR calls is accepted, and for every register covering their qubits, every starting branch and all measurement outcomes, running the emitted OpenQASM lines gives the classical bits of the QIR run and its state up to one global phase of modulus one |
| Translation.TranslationTracksPhase | processors/CudaQBridge.h:141-193 | That phase is exactly the product of one half-turn per rz (qelib1.inc defines rz as u1) and of the u3 adjoints and passed-over operations where these are harmless; every controlled call contributes none, so controlled gates are exact |
| Translation.PlainSound | processors/CudaQBridge.h:164-193 | Each uncontrolled operation and its adjoint, swap, cnot, cz, measurement and reset included: the emitted lines act as the operation's own matrix, up to the call's phase |
| Translation.InvokeSound | processors/CudaQBridge.h:109-139 | Each call with controls: the lines chosen by `controlled` act as the controlled unitary of the operation, or of its adjoint, with no phase at all |
| Translation.SwapLines | processors/CudaQBridge.h:189-191 | Three alternating cx lines exchange two different qubits of any state |
| Translation.ControlledSwapLines | processors/CudaQBridge.h:137-138 | cx, ccx, cx is the controlled exchange of two qubits |
| Translation.ControlledZLines | processors/CudaQBridge.h:118-119 | h, ccx, h is the doubly controlled Z |
| Translation.RotationMatrix | processors/CudaQBridge.h:179-181 | rx, ry, rz and u1 of an angle, or of the negated angle for the adjoint, have the matrix the rotation and its adjoint should have, up to the rz phase |
| Unfaithful.FaithfulExactly | processors/CudaQBridge.h:144-193 | A supported call is accepted, and it keeps its meaning on every branch if and only if it is faithful; the unfaithful kinds are the adjoint of a u3 that is not its own adjoint, the controlled adjoint of sdg or tdg, and an operation under a name the loop passes over, such as a direct controlled call, unless it does nothing |
| Unfaithful.U3AdjointFails | processors/CudaQBridge.h:182-184 | The adjoint of any other u3 is emitted as the u3 itself, and there is a branch on which no global phase repairs that |
| Unfaithful.ControlledAdjointFails | processors/CudaQBridge.h:153-158 | The controlled adjoint of sdg or tdg is emitted as controlled sdg or tdg, and there is a branch on which no global phase repairs that |
| Unfaithful.DropFails | processors/CudaQBridge.h:164-166 | An operation whose name the loop does not know emits no line, and unless it does nothing there is a branch on which no global phase makes up for that |
| Translation.DroppedSound | processors/CudaQBridge.h:164-166 | An operation that is passed over although it does nothing, such as a rotation by no angle, is dropped without harm |
| CudaQBridge.Convert | processors/CudaQBridge.h:102-107 | The main loop with its register sizing: it succeeds if and only if every call is supported and has its arguments, and refuses the kernel as unsupported if and only if the first call to fail is; otherwise it emits the lowered lines in order, every index lies in its register, the declared minima are met, the classical register exists exactly when a line measures, and neither register is larger than an index in use or the declared minimum calls for |
| CudaQBridge.AcceptedExactly | processors/CudaQBridge.h:109-139 | A call is translated if and only if it is supported and has its arguments: under a generalized invoke without control arrays one control, or two for x and z, and neither cnot, cz nor u3; uncontrolled everything but sdg, tdg and unknown names; it is refused as unsupported if and only if it is not supported |
| CudaQBridge.AllAcceptedExactly | processors/CudaQBridge.h:141-193 | A list of calls is translated if and only if each is, and the first that is not decides the error |
| CudaQBridge.SupportedExactly | processors/CudaQBridge.h:141-193 | A list of well-formed calls is translated if and only if all are supported |
| CudaQBridge.TouchedAreUsed | processors/CudaQBridge.h:105-107 | Conversely every qubit passed to the register-sizing function occurs in a line of its call |
| CudaQBridge.LoweredFits | processors/CudaQBridge.h:109-139 | No line lowered from a call uses a qubit that was not passed to the register-sizing function, or a classical bit other than the call's |
| Operands.SplitOperands | processors/CudaQBridge.h:66-80 | The character loop computes the operands at nesting depth zero, trimmed, dropping an empty last one |
| Operands.SplitInvertsJoin | processors/CudaQBridge.h:66-80 | Splitting inverts joining with commas and any white space, for all lists of operands whose own commas are inside parentheses |
| Operands.ListWrittenOut | processors/CudaQBridge.h:66-80 | One operand list with nested parentheses, written out |
| RWMutex.Exclusion | dap/rwmutex.h:59-87 | In every reachable state of any number of threads readLocks is the number of read holders, pendingWriteLocks the number of writers still waiting, and a thread with the write lock excludes every reader and every other writer |
| RWMutex.LockReader | dap/rwmutex.h:59-62 | However many readers hold the lock and however many writers wait, with the inner mutex at rest the three own steps of an idle thread are enabled and make it one reader more, everybody else staying where they are |
| RWMutex.UnlockReader | dap/rwmutex.h:64-70 | The four own steps of a reader make it one reader fewer; a sleeping writer is woken exactly when the last reader leaves and one sleeps |
| RWMutex.LockWriter | dap/rwmutex.h:72-80 | With the mutex at rest a writer gets the lock at once when nobody reads, however many writers wait, and otherwise goes to sleep as one pending writer more |
| RWMutex.UnlockWriter | dap/rwmutex.h:82-87 | Releasing the write lock frees the mutex and wakes a sleeping writer if there is one |
| RWMutex.ReaderGetsLock | dap/rwmutex.h:59-87 | From every reachable state an idle thread can get a read lock: besides its own steps at most the owner of the mutex finishes, and whoever reads goes on reading |
| RWMutex.NoLostWakeup | dap/rwmutex.h:64-87 | In every reachable state, spurious wakeups included, if no read lock is held and a writer sleeps, then a waiting writer is already awake or the owner of the inner mutex is about to notify or to take the lock; with the mutex at rest it is the former |
| RWMutex.WaitingWriterCanProceed | dap/rwmutex.h:72-80 | Whenever a writer waits, some thread already inside has an enabled step that is neither a new lock request nor a spurious wakeup |
| RWMutex.WriterGetsLock | dap/rwmutex.h:59-87 | From every reachable state and for every waiting writer there is a run of threads already inside, with no new lock request and no spurious wakeup, at whose end that writer holds the lock |
| RWMutex.StepLighter | dap/rwmutex.h:59-87 | Each step of a thread already inside brings all threads together closer to rest, a wakeup included |
| RWMutex.RunInv | dap/rwmutex.h:59-87 | Mutex ownership, exact counters, exclusion and the wakeup in flight are kept along every run |
| Socket.DescriptorClosedOnce | dap/socket.cpp:163-226 | Over every interleaving of isOpen, close, read and write the descriptor is passed to ::close at most once, no thread is inside a call on it meanwhile, and no call on it happens later |
| Socket.CallGetsIn | dap/socket.cpp:163-226 | With the inner mutex at rest the six own steps of any call, whatever other threads are doing inside theirs, reach the descriptor, or see that it is gone, and change nothing else |
| Socket.NobodyStuck | dap/socket.cpp:163-226 | Nothing but the lock holds a call up: wherever its thread does not wait for the inner mutex, and with the mutex at rest always, it has an enabled step of its own |
| Socket.WritesDuringRead | dap/socket.cpp:206-226 | From every reachable state in which a thread is inside recv another one can get into send without any step of the receiving thread |
| Socket.CloseCloses | dap/socket.cpp:175-204 | close() on a socket that holds its descriptor and whose lock is not in use passes it to ::close once, clears the field and leaves everything else as it was |
| Socket.ClosedUnlessDropped | dap/socket.cpp:163-204 | A descriptor no longer held has been passed to ::close if and only if isOpen did not overwrite the field while it was still valid |
| Socket.LostExactly | dap/socket.cpp:163-173 | Along every run a valid descriptor is lost unclosed if and only if an isOpen that getsockopt told of an error reaches its write section while the field is still valid |
| Socket.ClosedWithoutErrors | dap/socket.cpp:163-204 | Along every run in which no isOpen meets an error, a descriptor that is no longer held was passed to ::close |
| Socket.IsOpenCanDrop | dap/socket.cpp:163-173 | The other case is reachable: isOpen on a socket with a pending error loses the descriptor without closing it |
| Entanglement.Lagrange | QSCore.cpp:126-137 | The complex Lagrange identity: product of the two diagonal sums minus the squared modulus of the off-diagonal sum equals the sum of the squared two-by-two minors |
| Entanglement.DetAsMinors | QSCore.cpp:75-84 | The determinant of the matrix normalised by its trace, times the squared trace, is that sum of squared minors |
| Entanglement.DeterminantRange | QSCore.cpp:83-84 | The determinant lies in [0, 1/4], the clamp never changes it, and it is zero if and only if the two amplitude vectors are linearly dependent |
| Entanglement.MinorsZeroIffDependent | QSCore.cpp:126-137 | The sum of squared minors vanishes if and only if one amplitude vector is a multiple of the other |
| Entanglement.EigenvaluesOf | QSCore.cpp:86-90 | Both eigenvalues lie in [0, 1], they add up to one and their product is the determinant |
| Entanglement.EntropyFromRho | QSCore.cpp:75-96 | The von Neumann entropy of two numbers in [0, 1] that add up to one and multiply to the clamped determinant, except that a smaller one of at most 1e-15 counts as zero; zero for a trace that is not positive |
| Entanglement.EntropyRange | QSCore.cpp:86-95 | For every logarithm to base two the result lies between zero and one; it is zero if and only if the determinant is, and one if and only if the determinant is 1/4, the cut at 1e-15 notwithstanding |
| Entanglement.CutWrittenOut | QSCore.cpp:92-94 | Where a small eigenvalue is cut off, written out |
| Entanglement.DetOfMixed | QSCore.cpp:79-83 | The determinant is 1/4 if and only if the diagonal entries are equal and the off-diagonal one is zero |
| Entanglement.EntropyMeans | QSCore.cpp:114-146 | The number reported for a qubit is zero if and only if the amplitudes with the qubit clear and set are linearly dependent, that is, it is not entangled, and one if and only if its two values are equally likely without coherence |
| Entanglement.ReportMeans | QSCore.cpp:114-151 | S_max is zero if and only if no qubit is entangled, and one if and only if some qubit is maximally so |
| Entanglement.BellPair | QSCore.cpp:98-151 | For a Bell pair both entropies and their maximum are one |
| Entanglement.ReducedDensity | QSCore.cpp:118-137 | The strided double loop: every access is in bounds and the sums range over exactly the pairs of amplitudes that differ in the qubit, each once |
| Entanglement.DiagonalByBit | QSCore.cpp:118-137 | The diagonal entries are the bit-test sums over all indices, so they add up to the squared norm |
| Entanglement.DetIgnoresScale | QSCore.cpp:108-112 | The normalisation of the amplitudes does not change the determinant |
| Entanglement.ComputeEntanglement | QSCore.cpp:98-151 | The whole computation: one entropy per qubit, each of a spectrum with that qubit's determinant, their maximum and their average; nothing for a vector of the wrong length |
| Codec.RoundTrip | dap/typeof.h:163-189 | For every schema with distinct field names and every value of it, reading the written JSON tree gives the value back if and only if no unset optional field, at any depth, has a struct without fields as its type |
| Codec.UnsetEmptyStructComesBack | dap/serialization.h:108-115 | The value the round trip loses: an unset optional struct without fields is read back as set |
| Codec.UnknownFieldsIgnored | dap/nlohmann_json_serializer.cpp:139-152 | Two trees that agree on every field the schema names, at every depth, decode alike, whatever other members they have |
| Codec.DecodedIsTyped | dap/nlohmann_json_serializer.cpp:47-152 | Whatever is accepted, from a tree or from a missing field, is a value of the schema with integers in 64-bit range, and one that survives being written |
| Codec.AcceptedExactly | dap/nlohmann_json_serializer.cpp:47-152 | For every schema and every JSON tree, decoding succeeds if and only if the tree has the kinds the schema takes: the right kind for each scalar, every item for an array, every required field for a struct, which only an object or an array can be |
| Codec.FieldAccepted | dap/serialization.h:104-122 | A field of the wrong kind or not there stays unset if it is optional and fails if it is not |
| Codec.IntegersRead | dap/nlohmann_json_serializer.cpp:55-69 | An integer is read modulo two to the 64 into the signed range, itself if it fits, and where a number is wanted as that number |
| Codec.ObjectFrom | dap/nlohmann_json_serializer.cpp:79-90 | Read as an object, an array has the numerals of its indices as keys, null has none, and a scalar is its own only entry under the empty key |
| Codec.TreeRoundTrip | dap/nlohmann_json_serializer.cpp:92-119 | Every tree whose integers fit in 64 bits is written back as it was read into an any |
| Codec.WrittenOut | dap/nlohmann_json_serializer.cpp:173-263 | One value of each kind and its tree, written out; an unset field leaves no member |
| Codec.AnyWrittenOut | dap/nlohmann_json_serializer.cpp:192-229 | The kinds of an any and their trees, written out |
| Codec.DecodeEncodeDecode | dap/typeof.h:163-189 | Decoding, encoding and decoding again gives what the first decoding gave, for every schema and every JSON tree |
| Codec.FromMissing | dap/null_json_serializer.h:25-42 | From a field that is not there only a struct without fields can be read |
| Codec.MembersAre | dap/nlohmann_json_serializer.cpp:244-263 | Each set field is a member under its own name with its own encoding; each unset optional is not a member |
| Codec.AnyRoundTrip | dap/nlohmann_json_serializer.cpp:92-119 | A JSON-shaped `any` is read back as written |
| Codec.Serialize | dap/nlohmann_json_serializer.cpp:173-263 | The writing loops compute the encoding; a field's member is created, filled and erased again when the value was an unset optional |
| Codec.SerializeField | dap/nlohmann_json_serializer.cpp:247-258 | One field: the null member is replaced by the value or erased |
| Codec.Deserialize | dap/nlohmann_json_serializer.cpp:47-152 | The reading loops, with their early returns, compute the decoding |
| Codec.ItemsAre | dap/serialization.h:93-102 | An array decodes to given elements if and only if each element decodes to its own |
| ContentStream.ContentReader.Buffer | dap/content_stream.cpp:143-161 | After any chunking the buffer holds the wanted bytes or all there are, and no byte beyond them was asked for |
| ContentStream.ContentReader.Match | dap/content_stream.cpp:110-124 | The bytes are consumed if and only if they are next |
| ContentStream.ContentReader.Scan | dap/content_stream.cpp:95-103 | Bytes are dropped one at a time until the pattern is next or too few are left |
| ContentStream.ContentReader.MatchAny | dap/content_stream.cpp:131-141 | One byte of the set is consumed; a NUL byte is consumed too but reported as no match |
| ContentStream.ContentReader.ReadContent | dap/content_stream.cpp:77-92 | The blank line and the message: the result is a function of the bytes, not of how they arrive |
| ContentStream.ContentReader.Read | dap/content_stream.cpp:49-93 | One read: the message and what is held back are a function of the bytes alone, and a message is returned without asking for a byte behind it |
| Framing.ReadsFrame | dap/content_stream.cpp:49-93 | In either mode a frame, in ignore mode behind any text in which the header does not occur, yields its message with nothing of the following bytes taken; an empty message leaves its blank line behind |
| Framing.ReadsAnnounced | dap/content_stream.cpp:49-93 | The same for a message whoever announced it: behind the header any blanks and tabs and any numeral for its length, leading zeros included |
| Framing.OnlyAnnounced | dap/content_stream.cpp:49-93 | Nothing else is ever returned: the bytes a read used up are text it ignored, none in close mode, then the header, blanks, digits and the blank line, and the message has the length the digits give; one NUL may stand where blanks or digits end |
| Framing.FrameWrittenOut | dap/content_stream.cpp:191-196 | One frame, written out |
| Framing.IgnoreReadsAll | dap/content_stream.cpp:49-103 | In ignore mode every message of every sequence comes back in order, whatever header-free junk stands between the frames, empty messages included |
| Framing.CloseReadsAll | dap/content_stream.cpp:49-93 | In close mode all messages come back if and only if no message but those at the end is empty |
| Framing.StuckWhenClosing | dap/content_stream.cpp:50-54 | In close mode, once anything but the header is in front, such as what an empty message leaves behind, every later read gives nothing |
| Framing.ScanFinds | dap/content_stream.cpp:95-103 | Scanning finds the first header and drops exactly the text before it |
| Framing.DecimalValue | dap/content_stream.cpp:64-72 | The digit loop reads a decimal length modulo two to the 64, so as the length the writer printed if that fits |
| Framing.NumberReads | dap/content_stream.cpp:62-72 | The digit loop stops behind the last digit |
| Framing.Receive | dap/content_stream.cpp:49-93 | Calling read n times, in either mode and over any transport, gives the n results of the byte function; while every read returns a message, no byte behind the last frame is asked for |
| Transport.Transport.Read | dap/string_buffer.h:66-81 | Up to the wanted number of bytes of the piece in front, all of them in a StringBuffer, and some in any other reader; what was read followed by what is queued is what was written; an open transport that holds bytes returns none exactly when none were asked for or the piece in front is empty, and that piece is then gone; the pieces left are stated exactly |
| Transport.Transport.Write | dap/string_buffer.h:83-91 | The bytes are appended as one piece, unless the transport is closed |
| Transport.TakeStretch | dap/string_buffer.h:66-81 | Reading part or all of a piece shortens the bytes before the next empty piece by just what was read |
| ContentStream.ContentWriter.Write | dap/content_stream.cpp:191-196 | A message is written as its frame, in two pieces, the second empty for an empty message |
| Buffered.Transmit | dap/string_buffer.h:66-91 | Writer, StringBuffer and reader together, in either mode: reading as often as there are messages gives the messages if and only if no message but those at the end is empty |
| Buffered.ReadsExpected | dap/content_stream.cpp:49-93 | Behind a StringBuffer each empty message that others follow costs a read of its own in ignore mode, and everything after it in close mode |
| Buffered.ExpectedIsSent | dap/content_stream.cpp:49-93 | What is read is what was sent if and only if no message but those at the end is empty |
| Buffered.EmptyThenMessage | dap/string_buffer.h:66-81 | The smallest failing input: a message behind an empty one is read as nothing |
| Buffered.NothingIsLost | dap/string_buffer.h:66-81 | In ignore mode one more read for each such empty message brings every message that is not empty, in order |
| Buffered.NoExtraReads | dap/string_buffer.h:66-81 | No more reads than messages are needed if and only if no message but the last is empty |
| Buffered.BufferHolds | dap/string_buffer.h:66-91 | The bytes between two ends that a reader of the buffer meets are the frames up to and including an empty message |
| Chunks.Split | scripts/aiqasm/split.py:11-51 | The chunking loop computes the greedy grouping, every chunk is the header followed by its group, and an unknown model is an error |
| Chunks.Classify | scripts/aiqasm/split.py:19-30 | The header and body lines are the stripped global and other lines, blank and comment lines dropped |
| Chunks.LinesWrittenOut | scripts/aiqasm/split.py:25-30 | The four kinds of header lines, comments and some other lines, written out |
| Chunks.Optimal | scripts/aiqasm/split.py:32-51 | No split of the same lines into consecutive pieces within the budget uses fewer pieces |
| Chunks.StaysAhead | scripts/aiqasm/split.py:36-45 | While the current chunk costs no more than the current piece of another split, the loop needs no more pieces than it; otherwise at most one more |
| Chunks.PackKeepsLines | scripts/aiqasm/split.py:36-49 | The chunk bodies concatenate to exactly the body lines, in order |
| Chunks.WithinBudget | scripts/aiqasm/split.py:36-45 | All chunks are within the budget if and only if each line fits into a chunk of its own |
| Chunks.GreedyIsSound | scripts/aiqasm/split.py:36-49 | Only the first chunk can be bare header, exactly when the first line does not fit behind it; a chunk over budget is a single line that fits nowhere |
| Chunks.PieceIsStable | scripts/aiqasm/split.py:19-51 | Each chunk is a file of its own with the same header and its group as body, and splitting a chunk that is within the budget gives it back |
| Text.StripTwice | scripts/aiqasm/split.py:23-23 | Stripping a stripped line changes nothing |
| Text.StripWrittenOut | scripts/aiqasm/split.py:24-24 | What stripping takes off, written out |
| Optimizer.Split | scripts/optimizer/app.py:98-125 | Measurement lines and all others are separated in order, and the trailing barriers are taken off the end of the others, no more and no fewer |
| Optimizer.Join | scripts/optimizer/app.py:128-134 | Non-blank lines, then the barriers, then the measurements |
| Optimizer.MeasureWrittenOut | scripts/optimizer/app.py:108-113 | What is a measurement and what is not, written out |
| Optimizer.BarrierWrittenOut | scripts/optimizer/app.py:116-121 | What is a barrier and what is not, written out |
| Optimizer.MoveMeasurements | scripts/optimizer/app.py:98-134 | Splitting and joining moves the measurements to the end |
| Optimizer.MovedIsPermutation | scripts/optimizer/app.py:98-134 | The result is a permutation of the non-blank lines |
| Optimizer.MovedKeepsOrder | scripts/optimizer/app.py:98-134 | Measurements keep their order and the other non-blank lines keep theirs |
| Optimizer.MovedIsIdempotent | scripts/optimizer/app.py:98-134 | Doing it again changes nothing |
| DeferredMeasure.MovingKeepsMeaning | scripts/optimizer/app.py:98-134 | On every branch the moved text gives the same classical bits and amplitudes, when no line behind a measurement disturbs the measured qubit or reads the measured bit |
| DeferredMeasure.OptimizingKeepsMeaning | scripts/optimizer/app.py:290-333 | The same with any optimizer in between that keeps the meaning of the unitary part up to a global phase |
| DeferredMeasure.MeasureCrosses | scripts/optimizer/app.py:98-134 | A measurement moves past any list of operations that spare it |
| DeferredMeasure.MeasuresCross | scripts/optimizer/app.py:98-134 | So do the measurements of a whole register |
| ExactMoves.CommutesExactly | scripts/optimizer/app.py:98-134 | A measurement commutes with a gate for all states and outcomes if and only if the gate acts on another qubit or is diagonal on it; serving as a control is no obstacle |
| ExactMoves.TwoLinesExactly | scripts/optimizer/app.py:98-134 | On a measurement of a qubit or of a whole register, followed by a line of at most one other operation, a gate, a reset or either under a condition, the move keeps the meaning if and only if the operation spares the measured qubits and does not hang on the measured bits, or does nothing |
| ExactMoves.InstrTells | scripts/optimizer/app.py:98-134 | For every operation that does not spare what a register was measured into there is a branch that tells the two orders apart |
| ExactMoves.MeasuredAs | scripts/optimizer/app.py:98-134 | Measuring a register keeps exactly the bit strings that agree with the outcomes and writes the outcomes down |
| Channel.NoLostWakeup | dap/chan.h:49-86 | For the channel and the pipe, over every interleaving: with the mutex at rest a sleeping taker means an empty, open queue; otherwise the owner is about to wake everybody |
| Channel.InOrder | dap/chan.h:56-86 | What has been taken, followed by what is queued, is what has been put, in order |
| Channel.PutCall | dap/chan.h:69-89 | Putting appends the items however much is queued and wakes everybody exactly when the queue was empty and open; a closed pipe takes nothing |
| Channel.TakeCall | dap/io.cpp:42-59 | Taking gives the front item of a channel, or as many bytes from the front of an open pipe as are wanted and there, and nothing from a closed one; whoever got less from an open pipe goes on waiting |
| Channel.WaitCall | dap/chan.h:56-59 | With nothing to take in an open queue the caller falls asleep and gives the mutex back |
| Channel.CloseCall | dap/io.cpp:36-40 | Closing wakes everybody and changes nothing else |
| Channel.ShortMeansClosed | dap/chan.h:56-66 | A taker comes back with less than it wanted only from a closed queue, a channel only once it is drained |
| Channel.WaiterTakes | dap/io.cpp:42-81 | When there is something to take and the mutex is at rest, every waiting thread is awake, and its own next three steps take an item or find the queue closed |
| Channel.WaiterKeeps | dap/io.cpp:42-59 | Over any step a waiting reader keeps what it has, and what it takes comes off the front of the queue and goes to the end of what it has |
| Channel.NobodyStuck | dap/chan.h:49-86 | Nothing but the mutex, and the lack of items, holds a thread up: in any other place it has an enabled step of its own |
| Channel.ClosedPipeIsFrozen | dap/io.cpp:42-64 | From a closed pipe no run takes or adds a byte, whatever is queued |
| Channel.ClosingStrands | dap/io.cpp:36-51 | What has been put into a pipe can all still be taken after its closing if and only if nothing is queued when it is closed |
| Channel.PipeStrands | dap/io.cpp:36-51 | The other case is reachable: one write and one close leave a closed pipe that holds the byte for good |
| Channel.ClosedChannelDrains | dap/chan.h:56-66 | A closed channel can always be drained by an idle thread |
| Channel.RunInv | dap/chan.h:49-86 | Mutex ownership, sleepers, takers and conservation are kept along every run |
| Session.OneResponseEach | dap/session.cpp:338-408 | Over every interleaving the responses written are, in order, the numbers and outcomes of the first requests handled, each once, and the requests handled are the first of the acceptable ones in arrival order; while the writer stays open and both threads are at rest, all of them |
| Session.ResponsesTellOutcomes | dap/session.cpp:366-405 | Over every run the success flags of the responses written are the first of what the handlers returned, in order |
| Session.MessageIsQueued | dap/session.cpp:303-408 | Whatever the other threads do, an acceptable request or a known event is read and put at the back of the inbox by the receive thread's own steps |
| Session.JobIsHandled | dap/session.cpp:366-405 | Whatever the other threads do, the dispatch thread takes the front of the inbox: a request gets a response with the next number, the request's own number and what the handler returned, ready to be sent, and an event gets none |
| Session.SendCall | dap/session.cpp:495-502 | With sendMutex free and the writer open a message that is ready is written whole by its thread's own steps |
| Session.SendClosed | dap/session.cpp:495-502 | Once the writer is closed nothing is written |
| Session.AskCall | dap/session.cpp:133-152 | A client at rest can always ask: it takes the next number, and its handler is put in unless one waits under the same number |
| Session.AskFails | dap/session.cpp:133-152 | A request that cannot be serialized is not sent, but it has used up its number and its handler stays behind |
| Session.NobodyStuck | dap/session.cpp:110-165 | Nothing but sendMutex, and for the dispatch thread an empty inbox, holds a thread up: in any other place it has an enabled step of its own |
| Session.ReceiverNotStuck | dap/session.cpp:115-120 | The receive thread always has an enabled step |
| Session.ReplyArrives | dap/session.cpp:452-493 | A reply that names a waiting handler calls it for its own request with the verdict of the reply, or gives it up if the reply has none; the handler is gone either way |
| Session.NobodysMessage | dap/session.cpp:303-336 | A reply to nobody, an unknown event, an unacceptable request or an unreadable message changes nothing |
| Session.FramesDoNotMix | dap/session.cpp:495-502 | The bytes written are whole frames in the order of sending; only the frame being written, or one cut off by closing, can lack its body |
| Session.NumbersUnique | dap/session.cpp:133-165 | Before the 32-bit counter wraps no two messages sent carry the same number, read as unsigned or as int |
| Session.NumbersWrittenOut | dap/session.cpp:137-138 | The numbers around the change of sign and the wrap, written out |
| Session.HandlersFireOnce | dap/session.cpp:452-493 | A response handler is called at most once, and only for a reply that has arrived, names the number of its own request and gives the verdict it is called with, wraps or not |
| Session.HandlerBeforeBytes | dap/session.cpp:133-152 | Before the counter wraps a request's handler is registered before its first byte is written |
| Session.PutInstalls | dap/session.cpp:220-230 | In every reachable state registration succeeds if and only if no earlier handler waits under the same number, and before the wrap none does |
| Session.WrapOrphans | dap/session.cpp:133-152 | After the wrap it does happen: a state is reachable, one number past the bound, in which a request has been sent without a handler and the handler found under its number belongs to an older request |
| Session.StepPipeline | dap/session.cpp:110-131 | Each step keeps the accepted requests equal to those handled, the one with the handler, those in the inbox and the one being queued, and, while the writer is open, what the handlers returned equal to what was answered and what is being sent |
| Session.RunInv | dap/session.cpp:110-165 | All session invariants are kept along every run |
| Debugger.InstructionSteps | qvm/QppQVM.cpp:343-361 | After k steps in instruction mode the iterator and currentExecIndex are both the smaller of k and the end, the current line is the last positive gate line at or before it, 1 if there is none, and the next step reports the end if and only if k has reached it |
| Debugger.Debugger.ContinueInstructions | Debugger.cpp:45-61 | Continue is the least number, at least one, of single steps that reaches a breakpoint line; with none ahead it runs to the end and says so; only a million instructions without either end it otherwise |
| Debugger.Debugger.ContinueLines | Debugger.cpp:63-72 | Continue moves to the first breakpoint among the lines tried in cyclic order, or leaves the line alone; it runs no gate |
| Debugger.NegativeTries | Debugger.cpp:63-72 | From a negative line the remainder keeps its sign, so there are tries below line 1 |
| Debugger.Debugger.Continue | Debugger.cpp:41-73 | Only instruction mode runs gates on Continue and only it can report the end of the program; in line mode at most the line changes, to one with a breakpoint |
| Debugger.NearestBreakpoint | Debugger.cpp:63-72 | That line is the breakpoint at least cyclic distance after the current line among the first numSourceLines lines, and there is one if and only if one of these lines has a breakpoint |
| Debugger.Debugger.Launch | Debugger.cpp:75-90 | The number of lines a launch fixes: every line in instruction mode, and in line mode what calcNumberOfLines counts |
| SourceLines.CalcNumberOfLines | Utils.cpp:189-211 | The character loop computes the count that CountsNonEmpty explains |
| SourceLines.CountsNonEmpty | Utils.cpp:189-211 | The number of lines of a file is the number of its lines that are not empty, whatever ends them |
| SourceLines.CountWrittenOut | Utils.cpp:189-211 | One text with both line ends, counted |
| SourceLines.CountsAll | qvm/BaseQVM.cpp:41-48 | The other count takes every line, the empty ones included |
| Debugger.ContinueCoversFile | Debugger.cpp:63-72 | In line mode Continue looks at every line of the file if and only if no line is empty |
| Debugger.ContinueCoversText | Debugger.cpp:63-72 | It looks at every line that is not empty if and only if the empty ones come last |
| Debugger.EmptyLineHidesLast | Debugger.cpp:63-72 | A file of four lines with an empty one: wherever the debugger stands, no try looks at the last line, so a breakpoint on it is never reached |
| Debugger.GatesRun | qvm/QppQVM.cpp:128-218 | In line mode, over every run of steps and continues, the number of gates run is the smaller of the circuit's length and the number of steps on mapped lines |
| Debugger.StepsThrough | qvm/QppQVM.cpp:128-218 | Stepping from the top, after k steps the gates run are as many as the lines passed have instructions, up to the circuit's length, and the current line is the one after them |
| Debugger.LinesEnd | qvm/QppQVM.cpp:140-211 | In line mode a step reports the end if and only if all lines have been passed; a source without lines never ends and never moves |
| Debugger.AllGatesRun | qvm/QppQVM.cpp:140-211 | All gates have been run at the end of the source if and only if there are at least as many mapped lines as gates |
| Debugger.QVM.StepForward | qvm/QppQVM.cpp:128-218 | One step in either mode; the gates run are always the first of the circuit, in order, each once |
| SourceMap.MapCpp | qvm/BaseQVM.cpp:389-398 | Gate i is in the bucket of line l if and only if its source line is l; every bucket is strictly increasing |
| SourceMap.IndexIsUnique | qvm/BaseQVM.cpp:389-398 | There is only one such table: no valid gate is missing, none is repeated, and there is no other entry |
| SourceMap.MapQasm | qvm/BaseQVM.cpp:302-329 | Each executable line has the number of executable lines before it as its one gate, every other line none; without lines the table is left alone |
| SourceMap.QasmTableCounts | qvm/BaseQVM.cpp:312-326 | Read from the top the table is 0, 1, 2 and so on, one entry per executable line that has an original line |
| SourceMap.TableIsCircuits | qvm/BaseQVM.cpp:312-326 | The numbers in the table are the circuit's own if and only if every line that counts as executable gives the circuit one gate and every other line none |
| SourceMap.BodyIsCounted | qvm/BaseQVM.cpp:217-249 | A definition over several lines fails that: its body counts as a gate, and the operation behind it gets the number after its own |
| SourceMap.GateLineOf | qvm/BaseQVM.cpp:374-384 | The k-th executable line contributes the k-th entry, with the line the tool gave for it or 0 |
| SourceMap.CollectGateLines | qvm/BaseQVM.cpp:374-384 | The loop over the translated text collects one entry per executable line |
| SourceMap.PassiveWordHides | qvm/BaseQVM.cpp:217-249 | A line that begins with one of the seven words is passed over whatever follows, so an operation whose own name begins with one is not counted although it changes the state |
| SourceMap.WordsHide | qvm/BaseQVM.cpp:217-249 | A line of each of the seven kinds, written out, is not counted |
| SourceMap.SignsHide | qvm/BaseQVM.cpp:217-249 | Nor are comments, braces and blank lines |
| SourceMap.GatesWrittenOut | qvm/BaseQVM.cpp:217-249 | Lines with a gate, written out, are counted though they begin like one of the seven words |
| SourceMap.KeptWrittenOut | Utils.cpp:121-134 | Which lines of a file the map keeps, written out |
| SourceMap.BucketOfLine | qvm/BaseQVM.cpp:302-326 | A bucket stands for the line of the file that is left at its place once blank lines and lines starting with # are gone; that is its own line if and only if no such line precedes it |
| SourceMap.BucketsOfFile | qvm/BaseQVM.cpp:302-326 | Every bucket stands for its own line if and only if the lines left out all come last |

## Left out

- The text of QIR: matching lines with regular expressions, decoding of qubit and number operands; the model starts from parsed calls. Which names count as operations is part of the parsing: a call that is no quantum operation is a runtime call.
- Control flow: QIR is taken as a straight list of calls. The converter translates to an adaptive profile and ignores every line that is not a call, labels and branches included, so a kernel that branches on a measurement is outside the model.
- The bodies of the qelib1.inc macros: each gate is taken at the matrix its name stands for there, `rz` being `u1`, and `u1` being U(0, 0, lambda) as `Qasm.U1IsU3` shows.
- Angles the converter cannot represent: every angle is exact, and multiples of 2 pi are not distinguished in the uncontrolled gates.
- Floating-point rounding, and the values of `log`; with them the claim that the printed entropies are accurate.
- The lock gives readers preference, so a writer can wait for ever; nothing is claimed about starvation.
- Socket creation, options, `connect`, `accept` and the Windows and macOS paths; the constructor and destructor run when no other thread has the object.
- JSON text: parsing, printing, and the rounding of integers too large for 64 bits; binary and discarded JSON values.
- Codec.AnyRoundTrip: an `any` that holds a struct is read back as an object, so an `any` is JSON-shaped here; variants are the `any` they hold and are not listed as a type of their own.
- Optional fields nested directly in optionals or in arrays; the schemas the repository declares have none.
- `Chan::reset`, which is not called anywhere; response-sent handlers; handlers that throw; request handlers that answer later or never (only the return-value form is modelled); registration of request handlers while the session runs.
- Session.OneResponseEach: once the writer has been closed, responses are dropped and only the prefix statement remains, because the code then drops them too.
- Session.NumbersUnique: stated up to the first wrap of the 32-bit counter, after which numbers repeat.
- Unicode white space in Python's `strip` and the exact line splitting of `splitlines`; texts are lists of lines, and joining them with newlines is not modelled.
- The optimizer itself, Qiskit, pyzx and BQSKit: `DeferredMeasure.OptimizingKeepsMeaning` takes what it must keep as its hypothesis.
- DeferredMeasure.MovingKeepsMeaning: the condition is sufficient for a text; it is also necessary for two lines (`ExactMoves.TwoLinesExactly`), but in a longer text two disturbing gates can cancel.
- Translation.TranslationPreservesMeaning: faithfulness is necessary call by call (`Unfaithful.FaithfulExactly`), but in a list two unfaithful calls can cancel.
- ExactMoves.TwoLinesExactly: a second line of several operations is covered in one direction only, by `DeferredMeasure.MovingKeepsMeaning`, because two of them can cancel.
- Lines that hold a measurement without starting with `measure `, such as one behind another statement or with a tab behind the word, which the splitter does not recognise; `DeferredMeasure.Regular` says which texts are covered.
- Engine exceptions and a launch that failed to parse: a launch is taken to succeed, and the time a step took is reduced to whether the end was reached.
- Debugger.NearestBreakpoint: for a current line that is not negative; in line mode the field is uninitialised before the first step, and the remainder of a negative number would name lines that do not exist.
- The Python source map, which is a heuristic; locating the source tool, running it and reading its JSON.
- The HTTP services, the database, authentication, the WebSocket front end, process launching, configuration and logging.
- The heuristic rewriting of users' Python in the Qiskit and Tket processors, and the generated protocol tables, which are instances of the codec's schema type.
