# Verified model of facil.io's runtime core

Iodine carries the facil.io C library. This project models the stateful core of that library in Dafny
and proves what it is relied on for. One module stands for one component:

- `DeferQueue`: the deferred task queue, a chain of ring buffers with a built-in block that is recycled.
- `Allocator`, `AllocatorCalls`: arenas, 32KB blocks with reference counts and 256-block mappings, as
  interleaved steps, and what each call gets.
- `ProtocolLocks`, `ProtocolCalls`: protocol slots, the three lock kinds and the deferred `on_close`, as
  interleaved steps, and what each call achieves.
- `PubSub`, `PubSubHolders`, `PubSubSteps`, `PubSubRuns`: messages, subscriptions and channels that are
  reference counted, deferred deliveries and cancellation, as interleaved steps. `PubSubDeliveries`,
  `PubSubCalls`, `PubSubBalance` and `PubSubProgress`: who gets a message, when `on_message` is called, that no
  task is lost, and that there is no deadlock.
- `ClusterFraming`: the frame writer and the incremental reader of the cluster protocol.
- `Glob`, `GlobForms`: the glob matcher that remembers one `*`, and what each kind of pattern matches.
- `OrderedSet`, `LostEntry`, `SetHistories`: the open-addressed index over an insertion-ordered array.
- `Timers`, `TimerRuns`: the sorted timer list, and whole runs of timers.
- `PacketQueue`: a connection's outgoing packets, partial writes, urgent packets and closing.
- `Numbers`, `NumberText`, `NumberForms`: printing and parsing integers.
- `JsonScan`, `JsonNesting`, `JsonParse`, `JsonDocuments`, `JsonIntegers`: the string scan, the nesting state
  machine, the parser around them, and whole documents.
- `Base64`: the backward encoder.
- `Options`, `Sequences`: what several of them share.

Code that updates objects in place is modelled by classes and arrays, loops by loops. Where several threads
share state, one step is one access that the code makes atomic or protects by a lock, and a run is any
sequence of steps of any threads. Integer widths are written out where they matter: 64 bit wrap-around and
clamping of numbers, 32 bit lengths and bitmaps, and the 16 bit counters (`Allocator.CountsFit`).

## Where the code does not do what it seems to promise

- A scalar where an object key belongs is not refused, and the key flag survives the end of a document:
  `JsonNesting.StrictIffNoStray` says exactly when keys and values pair up, with a document for each case
  in `StrayValueWitness` and `StaleKeyWitness`. `JsonNesting.SecondDocumentIff` says when a second document
  is accepted.
- A pooled block that has never been used has a count of 1 that nobody holds (`Allocator.UnusedWitness`);
  `Allocator.RefCountExact` says that this is the only exception.
- A subscriber that has looked a channel up holds no reference until it has locked and confirmed it
  (ext/iodine/fio.c:6616-6638), not even when it tries again with that channel as its template:
  `PubSubRuns.LookedUpChannelMayVanish` is a run in which the channel is freed meanwhile, and
  `PubSubRuns.LookedUpChannelIsThere` says when it is not: for instance while the caller has another
  subscription of the same channel.
- The counter `sent` of a connection is never increased, so its third attack test always holds: a
  connection with 1024 packets waiting is dropped by a write that does not finish a packet
  (`PacketQueue.FloodWitness`, `PacketQueue.PacketsLostIff`).
- An empty packet that is no file blocks its queue for good (`PacketQueue.BlockedWitness`,
  `PacketQueue.EmptyPacketBlocks`), and nothing else does (`PacketQueue.BlockedIff`). An empty file that is
  the last packet leaves a closing connection open (`PacketQueue.StaysOpenWitness`,
  `PacketQueue.DrainedClosesIff`).
- The cluster reader tests its limits after it has added 1 in 32 bits, so a length of 2^32 - 1 passes
  (`ClusterFraming.RefusedIff`, `ClusterFraming.WrappedLengthWitness`).
- The comment at ext/iodine/fio.c:1634 promises `on_finish` also on an error; the code at lines 1638-1639
  does not call it, and the model follows the code (`TimerRuns.NothingMadeIff`, `TimerRuns.RefusedWitness`).
- The Base64 documentation (ext/iodine/fio.c:9824) says that no NUL is written; the code writes one.
- `a*` does not match `a`: a `*` that is met after the name is used up does not match
  (ext/iodine/fio.c:7956, `Glob.TrailingStarWitness`). Nothing matches that should not
  (`Glob.MatchesOrdinary`); a pattern whose last token is no `*` matches as it should
  (`Glob.OrdinaryIff`), and one that ends in `*` exactly when a byte is left for that `*`
  (`Glob.TrailingStarIff`).
- Removing the last-inserted entry of a set may cut off another entry's search: `LostEntry.CutOffWitness`
  shows it for the default rotation of hashes and a new set whose four slots come from `capa_require`, and
  `OrderedSet.Set.Remove` says exactly when.

## Model

| member | source | states |
|---|---|---|
| `DeferQueue.TaskQueue.constructor` | ext/iodine/fio.c:1143-1147 | a new queue is empty, on the built-in block, with nothing allocated |
| `DeferQueue.Block.Put` | ext/iodine/fio.c:1191-1197 | a task joins the end of the ring, also when the write position wraps |
| `DeferQueue.Block.Take` | ext/iodine/fio.c:1240-1245 | the oldest task of the ring leaves it; read meets write exactly when none is left |
| `DeferQueue.TaskQueue.MakeRoom` | ext/iodine/fio.c:1174-1190 | a full writer block gets a successor and no task moves; afterwards only the last block may be empty |
| `DeferQueue.TaskQueue.NewBlock` | ext/iodine/fio.c:1175-1184 | the parked built-in block is recycled before anything is allocated; the new block shares nothing with the chain |
| `DeferQueue.TaskQueue.Place` | ext/iodine/fio.c:1191-1197 | the task is the last one of the whole queue and the queue is consistent again |
| `DeferQueue.TaskQueue.Push` | ext/iodine/fio.c:1169-1204 | the queue afterwards is the queue before with the task at its end |
| `DeferQueue.TaskQueue.TakeFront` | ext/iodine/fio.c:1240-1245 | the oldest task of the queue is taken; other blocks do not change |
| `DeferQueue.TaskQueue.Advance` | ext/iodine/fio.c:1247-1250 | a used-up reader block leaves the chain without losing a task, and the block accounting stays exact |
| `DeferQueue.TaskQueue.Release` | ext/iodine/fio.c:1263-1272 | a block that leaves is parked if it is the built-in one and counted as freed otherwise |
| `DeferQueue.TaskQueue.Rewind` | ext/iodine/fio.c:1251-1259 | a drained chain goes back to the built-in block alone |
| `DeferQueue.TaskQueue.Settle` | ext/iodine/fio.c:1246-1272 | moving the reader on changes no task |
| `DeferQueue.TaskQueue.Pop` | ext/iodine/fio.c:1230-1274 | the oldest task is returned and removed; an empty queue gives the null task and stays empty |
| `DeferQueue.TaskQueue.FreeBlocks` | ext/iodine/fio.c:1277-1290 | as many blocks are counted as freed as came from the allocator |
| `DeferQueue.TaskQueue.Clear` | ext/iodine/fio.c:1277-1290 | the queue is empty, on the built-in block alone, and the counts of allocated and freed blocks are equal |
| `DeferQueue.TaskQueue.DrainedIsStatic` | ext/iodine/fio.c:1246-1272 | a drained queue sits on the built-in block alone and no allocated block is outstanding |
| `DeferQueue.RunHistory` | ext/iodine/fio.c:1169-1290 | any history of push, pop and clear returns what a plain FIFO sequence returns and leaves the same contents |
| `DeferQueue.FifoConserves` | ext/iodine/fio.c:1169-1290 | over a history the tasks that leave, followed by those that remain, are those that were there followed by those pushed: none lost, duplicated or reordered |
| `DeferQueue.HistorySplit` | ext/iodine/fio.c:1230-1274 | the specification of a history can be extended at its end, one operation at a time |
| `Glob.MatchClass` | ext/iodine/fio.c:7907-7938 | the class loop accepts exactly the bytes of some span, the other way round after `^`, and stops where the class ends |
| `Glob.GlobMatch` | ext/iodine/fio.c:7866-7957 | the loop that remembers only the last `*` returns 1 exactly when exhaustive recursive matching does, and terminates |
| `Glob.StarTakesOver` | ext/iodine/fio.c:7898-7905 | once a later `*` is reached, going back to an earlier one finds no further match |
| `Glob.LastAttempt` | ext/iodine/fio.c:7946-7957 | when the name is used up, no later start of the current attempt can match |
| `Glob.MatchCrosses` | ext/iodine/fio.c:7940-7953 | a match of plain tokens consumes one byte for each |
| `Glob.PlainExtends` | ext/iodine/fio.c:7940-7953 | a run of plain tokens grows by the next token that is no `*` |
| `Glob.TrailingStarWitness` | ext/iodine/fio.c:7888-7956 | `a*` does not match `a`, although it does in the usual meaning of `*` |
| `Glob.MatchesOrdinary` | ext/iodine/fio.c:7866-7957 | whatever matches also matches in the usual meaning, in which a `*` may stand for nothing at the end of the name too |
| `Glob.OrdinaryIff` | ext/iodine/fio.c:7866-7957 | a pattern whose last token is no `*` matches exactly what it matches in the usual meaning |
| `Glob.TrailingStarIff` | ext/iodine/fio.c:7888-7956 | a pattern that ends in `*` matches if and only if what stands before that `*` matches, in the usual meaning, a beginning of the name that leaves a byte over |
| `GlobForms.LiteralIff` | ext/iodine/fio.c:7940-7956 | plain text matches itself only |
| `GlobForms.EscapedIff` | ext/iodine/fio.c:7940-7946 | any text at all, with a backslash before each byte, matches itself only |
| `GlobForms.QuestionsIff` | ext/iodine/fio.c:7885-7886 | each `?` stands for exactly one byte, whichever it is |
| `GlobForms.ListIff` | ext/iodine/fio.c:7907-7938 | a list of bytes stands for any one of them, behind `^` for any other byte; its first byte may be `]` |
| `GlobForms.RangeIff` | ext/iodine/fio.c:7917-7934 | a range stands for the bytes between its ends, whichever end is larger, behind `^` for the others |
| `JsonScan.WordTestExact` | ext/iodine/fio_json_parser.h:222-236 | the word test has no false hit and no miss for `"` and for the backslash |
| `JsonScan.WordStops` | ext/iodine/fio_json_parser.h:222-236 | the word loop stops at a word exactly when one of its eight bytes ends the search |
| `JsonScan.Seek2Marker` | ext/iodine/fio_json_parser.h:196-266 | for every buffer, length and alignment the scan stops at the first `"` or backslash, or at the limit |
| `JsonScan.SeekTail` | ext/iodine/fio_json_parser.h:241-265 | so does the unrolled tail |
| `JsonScan.Seek2Eos` | ext/iodine/fio_json_parser.h:268-276 | the string end that is found is exactly the first quote with an even number of backslashes before it |
| `JsonNesting.ConsumeRepresents` | ext/iodine/fio_json_parser.h:326-503 | each token keeps bitmap, depth and key flag equal to the containers that the event log left open |
| `JsonNesting.FeedRepresents` | ext/iodine/fio_json_parser.h:326-508 | so does every run without an error, over any number of calls: at most 31 open containers, and the bitmap is exactly their stack |
| `JsonNesting.NoPendingBelow` | ext/iodine/fio_json_parser.h:346-402 | only the innermost container can wait for the value of a key |
| `JsonNesting.StrictIffNoStray` | ext/iodine/fio_json_parser.h:322-508 | every key got exactly one value before the next key or the close if and only if no scalar came where a key belongs and no key came outside an object |
| `JsonNesting.DeadStaysDead` | ext/iodine/fio_json_parser.h:326-508 | a log that has left the grammar never returns to it |
| `JsonNesting.StrayValueWitness` | ext/iodine/fio_json_parser.h:403-503 | `{"a":1 2}` passes although its key gets two values |
| `JsonNesting.StaleKeyWitness` | ext/iodine/fio_json_parser.h:504-508 | after `{}` the key flag stays set, so the next document's string is taken for a key |
| `JsonNesting.SecondDocumentIff` | ext/iodine/fio_json_parser.h:346-402 | an object or array that follows a complete document is accepted if and only if the key flag was clear before the last token of that document |
| `JsonNesting.SecondDocumentWitness` | ext/iodine/fio_json_parser.h:346-353 | `{}` is accepted, and another object after it is an error |
| `JsonNesting.LogIsBalancedPrefix` | ext/iodine/fio_json_parser.h:346-508 | start and end events are a prefix of a balanced word at every point, and `on_json` fires only when it is balanced |
| `JsonParse.Parser.SkipSeparators` | ext/iodine/fio_json_parser.h:317-320 | white space and commas are skipped, and nothing else |
| `JsonParse.Parser.ReadString` | ext/iodine/fio_json_parser.h:322-345 | a string ends at its first unescaped quote; a key must be followed by a colon |
| `JsonParse.Parser.ReadToken` | ext/iodine/fio_json_parser.h:321-503 | the token at the cursor and where it ends, or that more bytes are needed, or an error: all that the lemmas for words, brackets, numbers, comments and strings say |
| `JsonParse.LexWords` | ext/iodine/fio_json_parser.h:403-433 | `true`, `false` and `null` (or `Null`) and nothing else make the three fixed values, and end behind the word; with fewer bytes than the word has the parser waits |
| `JsonParse.LexBrackets` | ext/iodine/fio_json_parser.h:346-402 | each bracket makes its own token, and nothing else does |
| `JsonParse.LexNumbers` | ext/iodine/fio_json_parser.h:434-470 | an integer if the reader of integers stops where no byte of a number follows, else a float if the reader of floats does |
| `JsonParse.LexComments` | ext/iodine/fio_json_parser.h:471-500 | a comment ends at the first line end, or at the first `*` and `/` that close it |
| `JsonParse.LexStrings` | ext/iodine/fio_json_parser.h:322-345 | a string or key has the bytes between its quotes; a key needs a colon behind it |
| `JsonDocuments.DocumentIsRead` | ext/iodine/fio_json_parser.h:311-515 | the text of every value, with any white space in it and whatever stands behind it, is read to its end and reported as exactly its parts and one complete document if its containers are nested less than 32 deep, and is an error otherwise |
| `JsonDocuments.ReadsValue` | ext/iodine/fio_json_parser.h:321-503 | the same for a value inside open containers |
| `JsonDocuments.ReadsItems` | ext/iodine/fio_json_parser.h:346-402 | so are the items of an array |
| `JsonDocuments.ReadsMembers` | ext/iodine/fio_json_parser.h:322-402 | and the members of an object, each key before its value |
| `JsonIntegers.AtolReadsIntegers` | ext/iodine/fio.c:5188-5245 | `fio_atol` reads every integer of a document to its end, so that documents are read with it as that says |
| `JsonParse.Parser.Act` | ext/iodine/fio_json_parser.h:346-402 | what the parser does with a token is the step of the nesting state machine, with the same errors |
| `JsonParse.Parser.Parse` | ext/iodine/fio_json_parser.h:311-515 | a call performs exactly the tokens of the bytes it consumes, keeps the bitmap right, and its log is strict exactly when no stray token was among them |
| `JsonParse.ParseFeeds` | ext/iodine/fio_json_parser.h:311-515 | the tokens of a call that does not fail are fed to the nesting state machine in order, and it accepts each |
| `JsonParse.StringEndIs` | ext/iodine/fio_json_parser.h:268-276 | the place found by the scan is the end of the string |
| `NumberText.SkipZeroDigits` | ext/iodine/fio.c:5105-5111 | skips exactly the leading zeros |
| `NumberText.ConsumeDigits` | ext/iodine/fio.c:5114-5157 | reads digits in 64 bits for as long as the accumulator is within the limit |
| `NumberText.AtolUnsigned` | ext/iodine/fio.c:5202-5239 | prefix, base, too many digits and clamping of an unsigned number |
| `NumberText.Atol` | ext/iodine/fio.c:5188-5245 | the value read and the cursor, for every text |
| `NumberText.DigitBuffer` | ext/iodine/fio.c:5383-5392 | the digits, least significant first, in at most 40 of 48 places |
| `NumberText.BufferSuffices` | ext/iodine/fio.c:5272 | no number needs more places than the buffer has |
| `NumberText.CopyBack` | ext/iodine/fio.c:5393-5398 | the digits are copied out the other way round |
| `NumberText.PrintSigned` | ext/iodine/fio.c:5304-5398 | sign, octal zero and digits of the magnitude |
| `NumberText.PrintBinary` | ext/iodine/fio.c:5278-5303 | prefix, a zero that guards the sign, and the bits from the first 1 |
| `NumberText.PrintHex` | ext/iodine/fio.c:5326-5353 | prefix, two zeros that guard the sign, and the bytes from the first that is not zero |
| `NumberText.PrintZero` | ext/iodine/fio.c:5400-5418 | how zero is printed in each base |
| `NumberText.Ltoa` | ext/iodine/fio.c:5267-5419 | the printed form, at most 66 characters, with a NUL behind it |
| `NumberText.PrintAndRead` | ext/iodine/fio.c:5267-5419 | what is printed into the buffer reads back as the number, with the cursor at the NUL |
| `NumberText.WordStep` | ext/iodine/fio.c:5278-5353 | shifting a word left gives out its chunks from the top, one for each digit |
| `Numbers.DigitsLength` | ext/iodine/fio.c:5383-5392 | a number below the `k`th power of the base has at most `k` digits |
| `Numbers.DigitsValue` | ext/iodine/fio.c:5114-5157 | the digits of a number have its value |
| `Numbers.ConsumeReads` | ext/iodine/fio.c:5114-5157 | a run of digits in range is read in full, whatever its limit test |
| `Numbers.ReadBinary` | ext/iodine/fio.c:5202-5213 | a printed binary number reads back, for every 64 bit number |
| `Numbers.ReadHex` | ext/iodine/fio.c:5215-5225 | a printed hex number reads back, for every 64 bit number |
| `Numbers.ReadOctal` | ext/iodine/fio.c:5226-5239 | a printed octal number reads back, but for the smallest |
| `Numbers.ReadDecimal` | ext/iodine/fio.c:5232-5239 | a printed decimal number reads back, but for the smallest |
| `Numbers.ReadPrinted` | ext/iodine/fio.c:5188-5245 | reading undoes printing in bases 2, 8, 10 and 16, with the cursor at the end |
| `Numbers.ReadRareBases` | ext/iodine/fio.c:5354-5376 | a number printed in base 3 to 7 or 9 reads as what its digits mean in decimal, while that fits in 64 bits; this is the number itself if and only if it has one digit |
| `Numbers.AsDecimalDigits` | ext/iodine/fio.c:5232-5237 | the digits of a number in a smaller base, read as decimal, never mean less, and mean the number only if there is one of them |
| `NumberForms.ReadsForm` | ext/iodine/fio.c:5188-5245 | spaces, a sign, a base prefix, zeros and digits in either case are read as what they mean, up to where they end, whatever text follows |
| `NumberForms.HexDigits` | ext/iodine/fio.c:5215-5225 | the letters count from ten in either case, and no other character is a hex digit |
| `NumberForms.BinaryTellsSign` | ext/iodine/fio.c:5278-5303 | a printed binary number starts with a 1 if and only if it is negative |
| `NumberForms.HexTellsSign` | ext/iodine/fio.c:5326-5353 | a printed hex number has whole bytes, the first with its top bit set if and only if the number is negative |
| `Base64.EncodeInto` | ext/iodine/fio.c:9770-9808 | the target holds the padded encoding of section 4 of RFC 4648 and a NUL, also when target and source are one array |
| `Base64.EncodeStart` | ext/iodine/fio.c:9774-9796 | the last, incomplete group and the padding |
| `Base64.EncodeRest` | ext/iodine/fio.c:9781-9796 | the same, leaving the rest of the target alone |
| `Base64.EncodeGroup` | ext/iodine/fio.c:9797-9806 | three bytes are read before the four places are written |
| `Base64.EncodeDrops` | ext/iodine/fio.c:9774-9776 | the length is four for each three bytes begun, and whole groups encode independently of what follows |
| `Base64.EncodeInjective` | ext/iodine/fio.c:9770-9808 | with an alphabet without repetitions the text determines the data |
| `Base64.AlphabetsUnambiguous` | ext/iodine/fio.c:9728-9733 | neither of the two alphabets repeats a character or has the padding in it |
| `Base64.AlphabetsInOrder` | ext/iodine/fio.c:9728-9733 | which 6 bit value each character of the two alphabets stands for |
| `Base64.GroupValue` | ext/iodine/fio.c:9797-9806 | the four 6 bit values make the number to the base 64 that the three bytes make to the base 256 |
| `ClusterFraming.CreateMessage` | ext/iodine/fio.c:6519-6555 | the buffer that is sent is the frame of the message |
| `ClusterFraming.NewMessage` | ext/iodine/fio.c:7228-7236 | the header of the message buffer says the lengths, type and filter |
| `ClusterFraming.FrameParses` | ext/iodine/fio.c:6519-6555 | a frame parses back to its message, the filter with its sign |
| `ClusterFraming.FrameLayout` | ext/iodine/fio.c:7228-7236 | the place of each part of a frame: four numbers in network byte order, the channel, a NUL, the data, a NUL |
| `ClusterFraming.SelfDelimiting` | ext/iodine/fio.c:7196-7279 | frames cut off from the front of a stream are the frames that were sent, in order, with less than a frame left over |
| `ClusterFraming.Reader.constructor` | ext/iodine/fio.c:7322-7344 | a new reader has received and handled nothing |
| `ClusterFraming.Reader.ReadHeader` | ext/iodine/fio.c:7205-7238 | the header fields and the buffer for the message; the reader gives up exactly on a length over its limit that is not 2^32 - 1 |
| `ClusterFraming.RefusedIff` | ext/iodine/fio.c:7208-7227 | the headers refused are exactly those over the limits, but for lengths that wrap around to 0 |
| `ClusterFraming.WrappedLengthWitness` | ext/iodine/fio.c:7208-7220 | a channel of 2^32 - 1 bytes is over the limit and not refused |
| `ClusterFraming.Reader.TakeChannel` | ext/iodine/fio.c:7239-7254 | as many channel bytes as there are move to the message; it asks for more exactly when bytes are missing |
| `ClusterFraming.Reader.TakeData` | ext/iodine/fio.c:7255-7268 | the same for the data |
| `ClusterFraming.Reader.Deliver` | ext/iodine/fio.c:7269-7272 | the handler gets the message when all of it has arrived |
| `ClusterFraming.Reader.Append` | ext/iodine/fio.c:7198-7202 | a read adds its bytes behind those that wait |
| `ClusterFraming.Reader.Shift` | ext/iodine/fio.c:7274-7277 | what is left of the buffer moves to its front |
| `ClusterFraming.Reader.OnData` | ext/iodine/fio.c:7196-7279 | one read: every access stays inside the two buffers, and the frames handled, the frame in progress and the bytes that wait make up what was received; it fails only for a header over the limits |
| `ClusterFraming.DecodedInOrder` | ext/iodine/fio.c:7196-7279 | frames that were cut off a stream of messages decode to those messages in order |
| `ClusterFraming.NoBadHeader` | ext/iodine/fio.c:7212-7227 | the frames of messages within the limits contain no header that is refused |
| `ClusterFraming.HandledInOrder` | ext/iodine/fio.c:7196-7279 | what the handler has got is always the first of the messages sent, and all of them when all bytes have arrived |
| `ClusterFraming.NeverFatal` | ext/iodine/fio.c:7212-7227 | the connection is given up only if something else than such a stream arrived |
| `ClusterFraming.ReadPiece` | ext/iodine/fio.c:7196-7279 | a piece of a stream is read without an error |
| `ClusterFraming.ReadAll` | ext/iodine/fio.c:7196-7279 | for every list of messages within the limits and every way to cut their stream into reads, the handler gets exactly that list |
| `Timers.CompareOrders` | ext/iodine/fio.c:1527-1538 | the comparison orders times, and is 0 for equal ones only |
| `Timers.CalcDue` | ext/iodine/fio.c:1486-1499 | the due time is the tick and the interval, to the nanosecond |
| `Timers.TimerList.AddOrder` | ext/iodine/fio.c:1541-1582 | tail test, head test, tail probe and forward scan keep the list sorted and add exactly the timer, behind or before those due at the same time as `GoesBehind` says; the append at the end is never reached |
| `Timers.TimerList.Schedule` | ext/iodine/fio.c:1600-1612 | exactly the timers due at or before now leave the list, in due order |
| `TimerRuns.StepKeeps` | ext/iodine/fio.c:1585-1653 | each step keeps every timer in one place, its counters and runs in balance, and the list sorted |
| `TimerRuns.RunKeeps` | ext/iodine/fio.c:1585-1653 | so does every run |
| `TimerRuns.ReturnKeeps` | ext/iodine/fio.c:1585-1597 | a callback that returns puts its timer back or finishes it |
| `TimerRuns.ClearKeeps` | ext/iodine/fio.c:1614-1624 | clearing finishes exactly the timers on the list |
| `TimerRuns.TimersRunExactly` | ext/iodine/fio.c:1585-1653 | a timer that completes has run as often as it says; `on_finish` is called at most once, exactly when it is freed, and no run follows |
| `TimerRuns.RunsAsAsked` | ext/iodine/fio.c:1585-1653 | a timer that an accepted call made with `n` repetitions, and that completes, has run exactly `n` times, and `n` is not 0 |
| `TimerRuns.NothingMadeIff` | ext/iodine/fio.c:1636-1653 | a call makes no timer if and only if it has no task, or neither interval nor repetitions; no call calls `on_finish` |
| `TimerRuns.RefusedWitness` | ext/iodine/fio.c:1638-1639 | a run with one refused call: no timer and no `on_finish` |
| `TimerRuns.TimersAreNeverLost` | ext/iodine/fio.c:1585-1653 | a timer is in exactly one place (list, queue, running or freed) from its creation on |
| `TimerRuns.DueAfterInterval` | ext/iodine/fio.c:1585-1653 | a timer that is made, and one whose run returns, is due after its interval from then, with one run less to come; the last run frees it |
| `TimerRuns.ScheduledWhenDue` | ext/iodine/fio.c:1600-1612 | scheduling queues exactly the timers that are due |
| `TimerRuns.OldestRuns` | ext/iodine/fio.c:1585-1597 | the timer that waited longest in the queue runs, once |
| `TimerRuns.ClearedIff` | ext/iodine/fio.c:1614-1624 | a timer ends by a clear if it was in the list then, otherwise when its last run returns |
| `TimerRuns.ClearEndsAll` | ext/iodine/fio.c:1614-1624 | a clear ends every timer in the list |
| `TimerRuns.NeverStuck` | ext/iodine/fio.c:1585-1653 | in every reachable state due timers can be scheduled, a queued one can run, and a running one can return |
| `TimerRuns.CreateCanStart` | ext/iodine/fio.c:1636-1653 | every call of `fio_run_every` can be made |
| `ProtocolLocks.StepKeeps` | ext/iodine/fio.c:4176-4234 | every step of locking, attaching, detaching, deferring and closing keeps the invariant, for any number of threads |
| `ProtocolLocks.RunKeeps` | ext/iodine/fio.c:553-580 | the invariant holds in every reachable state |
| `ProtocolLocks.CallbacksNeverOverlap` | ext/iodine/fio.c:553-580 | two callbacks under the same lock kind never overlap on one protocol |
| `ProtocolLocks.OnlyCheckCloses` | ext/iodine/fio.c:2808-2816 | only the deferred task starts `on_close`, and only when it has seen no lock of the protocol held |
| `ProtocolLocks.ClosesGrow` | ext/iodine/fio.c:2808-2816 | a close that has started stays started |
| `ProtocolLocks.NoCallbackAfterClose` | ext/iodine/fio.c:2808-2816 | no callback runs or starts once `on_close` has started |
| `ProtocolLocks.CloseStartsAlone` | ext/iodine/fio.c:2808-2816 | `on_close` starts at most once, while no thread holds a lock of the protocol |
| `ProtocolLocks.ExactlyOneClose` | ext/iodine/fio.c:4176-4234 | a protocol that was attached, replaced or rejected and is in no slot has exactly one close queued, on its way or done |
| `ProtocolCalls.CheckClosesIff` | ext/iodine/fio.c:2808-2816 | the deferred task starts `on_close` if and only if no thread holds a lock of the protocol, else it is queued again |
| `ProtocolCalls.TriesIff` | ext/iodine/fio.c:553-556 | a try gives up at once exactly when another thread holds the lock of the slot |
| `ProtocolCalls.LockedIff` | ext/iodine/fio.c:553-580 | otherwise the callback runs on the protocol found in the slot, which stays there meanwhile; it does not exactly when the slot is empty or another thread held that lock of the protocol |
| `ProtocolCalls.AttachedIff` | ext/iodine/fio.c:4176-4234 | attaching puts the protocol into its slot and sends the one that was there to its close; if the connection is gone the new one goes to its close |
| `ProtocolCalls.DetachedIsEmpty` | ext/iodine/fio.c:478-534 | a detach leaves its slot empty |
| `ProtocolCalls.NeverStuck` | ext/iodine/fio.c:553-580 | in every reachable state a thread inside a call can go on, or waits in `fio_attach` for a slot whose holder can go on |
| `ProtocolCalls.CallsCanStart` | ext/iodine/fio.c:553-580 | a thread outside of calls can try to lock or detach a slot that is not locked, attach a new protocol, and take any queued close |
| `Allocator.ReturnKeeps` | ext/iodine/fio.c:8407-8435 | the root counts the blocks outside the pool; the mapping leaves when the last one returns |
| `Allocator.StepKeeps` | ext/iodine/fio.c:8636-8672 | every step of any thread on any arena keeps the invariant |
| `Allocator.RunKeeps` | ext/iodine/fio.c:8636-8672 | the invariant holds in every reachable state |
| `Allocator.RefCountExact` | ext/iodine/fio.c:8395-8509 | a block's count is its arena (0 or 1) plus its live slices if and only if the block is not one that has never been used; every block outside the pool has been |
| `Allocator.UnusedWitness` | ext/iodine/fio.c:8462-8467 | the other blocks of a new mapping wait in the pool with a count of 1 that nobody holds |
| `Allocator.RootCountsBlocksOut` | ext/iodine/fio.c:8385-8471 | the root's count is the number of blocks outside the pool |
| `Allocator.SlicesAreApart` | ext/iodine/fio.c:8473-8502 | live slices are disjoint and between the header and the end of their block; none has the place that marks a large allocation |
| `Allocator.CountsFit` | ext/iodine/fio.c:8385-8404 | both counts fit their 16 bits |
| `Allocator.MallocIsZero` | ext/iodine/fio.c:8636-8655 | every small result of `fio_malloc` is all zero bytes |
| `Allocator.UnitsHandedOnce` | ext/iodine/fio.c:8473-8502 | a place of a block is handed out at most once between two wipes of the whole block |
| `Allocator.CleanedAlone` | ext/iodine/fio.c:8407-8413 | only one thread wipes a block, and no arena and no slice refers to it then |
| `Allocator.NothingTouchesUnmapped` | ext/iodine/fio.c:8407-8435 | no thread is about to touch a block of a mapping that has gone |
| `Allocator.ReturnedWhenAllPooled` | ext/iodine/fio.c:8420-8435 | when a mapping is given back no block of it is live or owned |
| `Allocator.LeavesWithTheLastBlock` | ext/iodine/fio.c:8420-8435 | it leaves exactly when its last block is pooled |
| `AllocatorCalls.MallocGives` | ext/iodine/fio.c:8636-8655 | a call for `size` bytes that returns without failing gives at least `size` and less than `size + 16` bytes, and the program has them until it frees them |
| `AllocatorCalls.KeptUntilFreed` | ext/iodine/fio.c:8473-8509 | a live slice keeps its place, its length and its owner until its `fio_free` |
| `AllocatorCalls.ContentsStay` | ext/iodine/fio.c:8473-8509 | what is in a live slice changes by writes of the program only |
| `AllocatorCalls.FailsWithoutMemory` | ext/iodine/fio.c:8437-8502 | a call fails only if the system refused memory |
| `AllocatorCalls.FreeTakesOne` | ext/iodine/fio.c:8504-8509 | a `fio_free` ends its own slice and no other |
| `AllocatorCalls.NeverStuck` | ext/iodine/fio.c:8636-8672 | in every reachable state a thread inside a call can go on |
| `AllocatorCalls.CallsCanStart` | ext/iodine/fio.c:8636-8672 | a thread outside of calls can ask for any small size from an arena that is not locked, and free any slice that the program has |
| `PubSubRuns.StepKeeps` | ext/iodine/fio.c:6613-7071 | every step of publishing, delivering, subscribing and unsubscribing keeps the invariant, for any number of activities |
| `PubSubRuns.RunKeeps` | ext/iodine/fio.c:6613-7071 | the invariant holds in every reachable state |
| `PubSubHolders.StepKeepsBound` | ext/iodine/fio.c:6566-7071 | every step gives references to a message, a subscription or a channel to their own kinds of holders only |
| `PubSubRuns.MessageCountExact` | ext/iodine/fio.c:6566-6588 | a message's count is the number of its holders, and these are exactly the activities that have it, the tasks queued with it and the packets at sockets that write it |
| `PubSubRuns.SubscriptionCountExact` | ext/iodine/fio.c:6694-6703 | the same for a subscription: deliveries, tasks, and the program until it has unsubscribed, and nothing else |
| `PubSubRuns.ChannelCountExact` | ext/iodine/fio.c:6379-6408 | the same for a channel: activities, tasks, its subscriptions and the table, and nothing else |
| `PubSubRuns.MessageFreedIff` | ext/iodine/fio.c:6566-6580 | a message is freed, once, exactly when no activity, task or packet has it any more |
| `PubSubRuns.SubscriptionFreedIff` | ext/iodine/fio.c:6694-6703 | a subscription is freed, once, exactly when it is unsubscribed and no delivery of it is queued or going on |
| `PubSubRuns.ChannelFreedIff` | ext/iodine/fio.c:6395-6401 | a channel is freed, once, exactly when it is out of the table and no subscription, activity or task has it |
| `PubSubRuns.NothingUsedAfterFree` | ext/iodine/fio.c:6741-7071 | no activity uses a message or subscription that is freed, nor a channel, but for a subscriber that has looked it up and not confirmed it |
| `PubSubRuns.LookedUpChannelIsThere` | ext/iodine/fio.c:6613-6640 | such a subscriber, which locks the channel or tries again with it as its template, finds it there if and only if it is in the table or some other subscription, activity or task has it |
| `PubSubRuns.LookedUpChannelMayVanish` | ext/iodine/fio.c:6613-6640 | a run that frees a channel which another subscriber has looked up and is about to lock |
| `PubSubRuns.CallbacksNeverOverlap` | ext/iodine/fio.c:6972-7003 | two `on_message` calls of one subscription never overlap |
| `PubSubRuns.NoMessageAfterUnsubscribe` | ext/iodine/fio.c:6741-6775 | `on_message` neither runs nor starts after `fio_unsubscribe` has let go of the subscription |
| `PubSubRuns.UnsubscribeCallComesLast` | ext/iodine/fio.c:6694-6703 | `on_unsubscribe` is called at most once, after the last pending delivery |
| `PubSubRuns.UnsubscribeCallIsNotLost` | ext/iodine/fio.c:6694-6703 | and it is not lost: a subscription is unsubscribed with nothing pending if and only if it has been called or one activity is about to |
| `PubSubDeliveries.OwnStepOwes` | ext/iodine/fio.c:7006-7017 | each step of the loop over the subscriptions either keeps the number of deliveries owed to a subscription or queues one and owes one less |
| `PubSubDeliveries.RunOwes` | ext/iodine/fio.c:7006-7017 | so over any steps of any activities, what was queued and what is still owed add up to what was owed at first |
| `PubSubDeliveries.DeliveredOnceEach` | ext/iodine/fio.c:7006-7034 | between the lock of a channel's task and the end of its loop each subscription of the list that is not the cluster's mock gets exactly one delivery of the message, and no other gets one |
| `PubSubDeliveries.PublishedOnceEach` | ext/iodine/fio.c:7035-7071 | a message is queued once for each of its names that has a channel when it is looked up, and for no other |
| `PubSubDeliveries.SubscribedIsMember` | ext/iodine/fio.c:6613-6740 | when `fio_subscribe` returns, the subscription is in the list of the channel that the table has for its name |
| `PubSubCalls.StartsAreCalls` | ext/iodine/fio.c:6992-6995 | the count of started `on_message` calls is the number of steps in which an activity enters the callback |
| `PubSubCalls.CalledOnce` | ext/iodine/fio.c:6972-6996 | from its lock to its unlock a delivery calls `on_message` exactly once, or not at all if the subscription was silent |
| `PubSubCalls.AgainQueues` | ext/iodine/fio.c:6997-7000 | a delivery puts the same message for the same subscription into the queue again if its callback asked for it; otherwise it lets go of the message |
| `PubSubCalls.AnswerIsKept` | ext/iodine/fio.c:6992-7000 | what the callback answers is what the delivery goes by |
| `PubSubCalls.DoneWasCalled` | ext/iodine/fio.c:6972-7003 | a delivery that comes to its end has called `on_message` once unless the subscription was silent |
| `PubSubBalance.NoTaskLost` | ext/iodine/fio.c:6972-7071 | in every run the tasks ever queued for a message and a channel, or a subscription, are those that ended and those still pending: none is lost or done twice |
| `PubSubProgress.NoDeadlock` | ext/iodine/fio.c:6613-7071 | in every reachable state in which an activity is under way some activity can go on |
| `PubSubProgress.TaskCanStart` | ext/iodine/fio.c:6972-7034 | every queued task can be taken by an activity that does nothing else, and is then the channel's task or the delivery that was queued |
| `PubSubProgress.CreateCanStart` | ext/iodine/fio.c:7035-7071 | a new message can be published, for any names |
| `PubSubProgress.SubscribeCanStart` | ext/iodine/fio.c:6613-6640 | a new subscription can be made |
| `PubSubProgress.UnsubscribeCanStart` | ext/iodine/fio.c:6741-6775 | an active subscription can be given up |
| `PacketQueue.DeliveredThenPending` | ext/iodine/fio.c:3510-3535 | delivered bytes followed by pending bytes are the accepted packets in queue order |
| `PacketQueue.AcceptedAt` | ext/iodine/fio.c:3772-3784 | a packet joins at the end, an urgent one second, and nothing that was sent changes |
| `PacketQueue.AcceptedPending` | ext/iodine/fio.c:3772-3784 | the pending bytes: an urgent packet is never spliced into a partly sent one |
| `PacketQueue.AdvancedAt` | ext/iodine/fio.c:3523-3535 | a partial write moves exactly its bytes from pending to delivered |
| `PacketQueue.FlushLosesIff` | ext/iodine/fio.c:3914-3934 | a flush loses packets if and only if the write failed for good or was taken for an attack |
| `PacketQueue.PacketsLostIff` | ext/iodine/fio.c:3824-3997 | a connection goes with packets unsent if and only if that happened somewhere in its history |
| `PacketQueue.CloseLosesNothing` | ext/iodine/fio.c:3824-3835 | otherwise `fio_close` closes only when no bytes are pending |
| `PacketQueue.CloseDoes` | ext/iodine/fio.c:3824-3835 | in every history `fio_close` closes the connection at once if and only if no packet waits, marks it otherwise, and moves no packet |
| `PacketQueue.SendDoes` | ext/iodine/fio.c:3742-3803 | in every history an open connection takes a packet, also when it is to be closed, at the end or second if it is urgent; one that is gone takes none; nothing is sent |
| `PacketQueue.FlushDoes` | ext/iodine/fio.c:3896-3997 | in every history what a flush does to the waiting packets, the connection and its result, for each outcome of the write |
| `PacketQueue.IdleFlushDoes` | ext/iodine/fio.c:3896-3907 | a flush of a connection that is gone or has no packets changes nothing; it reports -1 or 0 |
| `PacketQueue.FloodWitness` | ext/iodine/fio.c:3918-3924 | 1024 packets and one short write drop the connection with its packets |
| `PacketQueue.ClosesWhenDrainedIff` | ext/iodine/fio.c:3914-3931 | the flush that empties a closing connection closes it if and only if it sent bytes |
| `PacketQueue.DrainedClosesIff` | ext/iodine/fio.c:3914-3934 | over any flushes that empty a closing connection, it is closed if and only if the one that emptied it sent bytes |
| `PacketQueue.DrainedStaysOpen` | ext/iodine/fio.c:3906-3907 | a closing connection that is empty and open stays open, whatever flushes follow |
| `PacketQueue.StaysOpenWitness` | ext/iodine/fio.c:3914-3916 | an empty file packet leaves a closing connection open |
| `PacketQueue.EmptyPacketBlocks` | ext/iodine/fio.c:3523-3535 | once an empty packet that is no file is in front, no call and no outcome of a write sends another byte or moves another packet |
| `PacketQueue.BlockedWitness` | ext/iodine/fio.c:3523-3535 | one empty packet that is no file blocks a new connection |
| `PacketQueue.StaysUnfinished` | ext/iodine/fio.c:3523-3535 | in every history a packet that is partly sent has bytes left |
| `PacketQueue.BlockedIff` | ext/iodine/fio.c:3523-3535 | in every history, an open connection on which packets wait is blocked if and only if no outcome of a write sends a byte or takes a packet off |
| `PacketQueue.StaysFaithful` | ext/iodine/fio.c:3510-3942 | over any history the bytes of finished packets are those of the first packets of the queue |
| `PacketQueue.HistoryKeepsBytes` | ext/iodine/fio.c:3510-3942 | after any history, delivered and pending bytes are the accepted packets in queue order |
| `PacketQueue.RunHistory` | ext/iodine/fio.c:3510-3942 | the linked list does what the history says, and the socket gets the delivered bytes |
| `PacketQueue.Connection.constructor` | ext/iodine/fio.c:502-507 | a new connection has no packets |
| `PacketQueue.Connection.Append` | ext/iodine/fio.c:3773-3774 | writing through the tail pointer adds the packet at the end, and the tail pointer addresses the last `next` again |
| `PacketQueue.Connection.InsertFirst` | ext/iodine/fio.c:3776-3783 | an urgent packet on an empty list |
| `PacketQueue.Connection.InsertSecond` | ext/iodine/fio.c:3776-3783 | an urgent packet goes behind the one in front, and the tail pointer is right in both cases |
| `PacketQueue.Connection.Place` | ext/iodine/fio.c:3772-3784 | where the packet joins |
| `PacketQueue.Connection.Enqueue` | ext/iodine/fio.c:3766-3786 | list, count and tail pointer stay consistent |
| `PacketQueue.Connection.Write` | ext/iodine/fio.c:3742-3803 | the packet is accepted, or refused when the connection is gone |
| `PacketQueue.Connection.Rotate` | ext/iodine/fio.c:3510-3521 | the packet in front leaves; the tail pointer and the count stay right |
| `PacketQueue.Connection.SendFront` | ext/iodine/fio.c:3523-3535 | the bytes sent are the next bytes of the packet in front, which leaves when it is used up |
| `PacketQueue.Connection.TakeFront` | ext/iodine/fio.c:3523-3535 | delivered bytes grow by exactly what was sent |
| `PacketQueue.Connection.WriteBuffer` | ext/iodine/fio.c:3523-3535 | a buffer moves only when bytes were sent |
| `PacketQueue.Connection.SendFile` | ext/iodine/fio.c:3580-3590 | a file moves also when none of it is left |
| `PacketQueue.Connection.SendSome` | ext/iodine/fio.c:3912-3913 | the packet's own way of writing |
| `PacketQueue.Connection.ClearFd` | ext/iodine/fio.c:478-534 | the connection is gone and its packets are freed |
| `PacketQueue.Connection.ForceClose` | ext/iodine/fio.c:3842-3885 | the same, at once |
| `PacketQueue.Connection.Close` | ext/iodine/fio.c:3824-3835 | packets that wait are sent first; without any the connection closes at once |
| `PacketQueue.Connection.Flush` | ext/iodine/fio.c:3896-3997 | the new state, the bytes sent and the result, for every outcome of the write |
| `PacketQueue.Connection.Perform` | ext/iodine/fio.c:3742-3997 | a call does what the history step says |
| `PacketQueue.Connection.PerformAll` | ext/iodine/fio.c:3742-3997 | the calls of a history do, one after the other, what the history says |
| `OrderedSet.SearchFinds` | ext/iodine/fio.h:5940-6004 | the search for the key of a live entry ends at its own slot |
| `OrderedSet.TwinIsMet` | ext/iodine/fio.h:5966-5989 | a search that finds nothing has met every other live entry of the same hash |
| `OrderedSet.EndMeans` | ext/iodine/fio.h:5940-6004 | where the search ends says whether the key is there |
| `OrderedSet.PlaceKeeps` | ext/iodine/fio.h:6098-6107 | a new entry in the slot where its search ended leaves every entry reachable |
| `OrderedSet.HoleKeeps` | ext/iodine/fio.h:6195-6206 | a hole that keeps its hash cuts no other search short, as long as no two entries share a hash |
| `OrderedSet.CutKeepsIff` | ext/iodine/fio.h:6197-6199 | blanking the slot of the last entry keeps every other entry reachable if and only if no other search passes that slot |
| `OrderedSet.TrimKeepsIff` | ext/iodine/fio.h:6200-6203 | dropping the removed entries at the end of the array changes no search |
| `LostEntry.FourSpots` | ext/iodine/fio.h:5638-5640 | where the searches for the hashes 5, 10 and 1 start in a map of four slots, under the default rotation |
| `LostEntry.CutOffWitness` | ext/iodine/fio.h:6184-6207 | three keys inserted, the first removed, inserted again and removed again: the second is no longer found although it has its entry |
| `OrderedSet.ReplaceKeeps` | ext/iodine/fio.h:6077-6097 | a new value changes no search |
| `OrderedSet.StopsAtHole` | ext/iodine/fio.h:6385-6397 | while the map is rebuilt, the search for an entry does not end at another one |
| `OrderedSet.NewHasNoTwin` | ext/iodine/fio.h:5966-5989 | the collision flag is set whenever two entries share a hash |
| `OrderedSet.SpotsDiffer` | ext/iodine/fio.h:5974-6001 | the probes of one search visit different slots |
| `OrderedSet.AllMet` | ext/iodine/fio.h:5974-6001 | a search all of whose probes met entries has met as many entries as it made probes |
| `OrderedSet.CollisionIsTwin` | ext/iodine/fio.h:5966-5989 | the collision flag is set only if two entries share a hash |
| `OrderedSet.AttackPacks` | ext/iodine/fio.h:5979-5986 | the attack flag is set only if one hash has `MAX_FULL_COLLISIONS` entries |
| `OrderedSet.NoSlot` | ext/iodine/fio.h:6373-6398 | when an entry finds no slot in the map there are at least as many entries as the map has room for |
| `OrderedSet.LookupLive` | ext/iodine/fio.h:6142-6153 | a live entry is what the association list has for its key |
| `OrderedSet.LookupAbsent` | ext/iodine/fio.h:6142-6153 | a key without a live entry is not in the association list |
| `OrderedSet.LiveUpdate` | ext/iodine/fio.h:6077-6097 | overwriting in the array is overwriting in the association list, in place |
| `OrderedSet.LiveKill` | ext/iodine/fio.h:6195-6196 | marking an entry as removed takes it out of the association list |
| `OrderedSet.LookupUpdated` | ext/iodine/fio.h:6048-6110 | an update changes what is found under its own key only |
| `OrderedSet.KeysUpdated` | ext/iodine/fio.h:6048-6110 | an update keeps the order of the keys; a new one comes last |
| `OrderedSet.RemovedAt` | ext/iodine/fio.h:6184-6207 | a removal takes one entry out and leaves the others in order |
| `OrderedSet.LookupRemoved` | ext/iodine/fio.h:6184-6207 | a removed key is not found, other keys are |
| `OrderedSet.Set.constructor` | ext/iodine/fio.h:6116-6131 | an empty set |
| `OrderedSet.Set.Test` | ext/iodine/fio.h:5963-5972 | which slot ends a search, and which is a collision |
| `OrderedSet.Set.Probe` | ext/iodine/fio.h:5940-6004 | the search ends at the first probe that stops it, and the collision flag is set exactly if a collision was met |
| `OrderedSet.Set.ProbeOn` | ext/iodine/fio.h:5974-6001 | so do the further probes |
| `OrderedSet.Set.CompactOrdered` | ext/iodine/fio.h:6009-6024 | live entries move to the front, in order |
| `OrderedSet.Set.Reallocate` | ext/iodine/fio.h:6027-6039 | an empty map of the right size; it gives up exactly when there is no memory for it |
| `OrderedSet.Set.MapAll` | ext/iodine/fio.h:6385-6397 | every entry gets a slot from which its own search finds it, or the map is too small |
| `OrderedSet.Set.Remap` | ext/iodine/fio.h:6373-6398 | the restart with a larger map ends with every entry indexed; it gives up only without memory or in a map of 2^16 slots with collisions, and never while the largest map has room |
| `OrderedSet.Set.Rehash` | ext/iodine/fio.h:6369-6398 | the contents stay, and every live entry is reachable by its own probe sequence and no absent one; when it can give up, and when there is an attack |
| `OrderedSet.Set.FindPos` | ext/iodine/fio.h:5940-6004 | the slot of the key, after the rebuild that hidden entries need |
| `OrderedSet.Set.Find` | ext/iodine/fio.h:6142-6153 | `find` agrees with the association list |
| `OrderedSet.Set.ClearHoles` | ext/iodine/fio.h:6055-6057 | rehashing makes room |
| `OrderedSet.Set.Grow` | ext/iodine/fio.h:6058-6062 | so does doubling |
| `OrderedSet.Set.MakeRoom` | ext/iodine/fio.h:6055-6062 | there is room for one more entry and the contents stay |
| `OrderedSet.Set.Append` | ext/iodine/fio.h:6067-6075 | an entry without a slot comes last and the map is rebuilt around it |
| `OrderedSet.Set.PutInSlot` | ext/iodine/fio.h:6098-6107 | an entry with a slot comes last |
| `OrderedSet.Set.Replace` | ext/iodine/fio.h:6077-6097 | the value changes in place |
| `OrderedSet.Set.InsertOrOverwrite` | ext/iodine/fio.h:6048-6110 | the association list is updated, or left alone without `overwrite`; the old value is reported; when it can give up |
| `OrderedSet.Set.Perform` | ext/iodine/fio.h:5940-6398 | one call of a history |
| `OrderedSet.Set.CutValidIff` | ext/iodine/fio.h:6195-6206 | with the last entry cut off the set is in order if and only if no other search passes its slot |
| `OrderedSet.Set.Hollow` | ext/iodine/fio.h:6195-6206 | removal of an entry that is not the last |
| `OrderedSet.Set.CutLast` | ext/iodine/fio.h:6195-6206 | removal of the last entry and of the holes before it |
| `OrderedSet.Set.Remove` | ext/iodine/fio.h:6184-6207 | the key leaves the association list and its value is reported; the index stays right if and only if the key did not have the last entry or no other search passes its slot |
| `OrderedSet.Set.RemoveFromSet` | ext/iodine/fio.h:6257-6280 | the same for a set; the hash 0 is refused although insertion replaces it |
| `OrderedSet.Set.Compact` | ext/iodine/fio.h:6358-6366 | the contents stay and no holes are left |
| `OrderedSet.Set.CapaRequire` | ext/iodine/fio.h:6333-6343 | the contents stay and the capacity suffices |
| `OrderedSet.RunHistory` | ext/iodine/fio.h:5940-6398 | in every history of insert, overwrite, find, compact, rehash, capacity and removal of entries other than the last one, every call reports what an insertion-ordered association list has, and the live entries are that list; it succeeds if the largest map has room for the entries at all times, and there is no attack unless one hash has `MAX_FULL_COLLISIONS` entries at some time |
| `SetHistories.HasLatest` | ext/iodine/fio.h:6048-6207 | after every history a key has the value that the history gave it last, and no key is there twice |
| `SetHistories.AnswersLatest` | ext/iodine/fio.h:5940-6398 | every call about a key reports the value that the calls before it gave that key last |

## Left out

- Sockets, polling, fork, signals, TLS, Windows paths, the Ruby classes, logging and the command line.
- Fairness: threads can always go on, but nothing is said about whether a task, a close or a delivery that can
  be run ever is.
- DeferQueue: `fio_defer_has_queue` as a test for emptiness, which a full block defeats, and a failing
  allocation, which ends the process.
- Allocator: large allocations, reallocation, fork and shutdown. `mmap` is taken to return fresh, zeroed
  memory, the order of the pool is not kept, and clients write only inside their live slices.
- ProtocolLocks: a slot that is cleared without its lock (ext/iodine/fio.c:2175, 2358 and 3996); each
  protocol object is attached once.
- PubSub: which names a message is for (its own and those of the patterns that match it) is a parameter of the
  step that creates it. Filter channels, message metadata, engines, the order of the task queue and delivery to other
  processes. Each subscription is unsubscribed at most once. The table of channels is an ideal map; the code
  keeps it in an ordered set, from which the removal of the last entry may cut off another channel's search
  (`LostEntry.CutOffWitness`), so that a lookup misses a channel that is there.
- PubSubRuns.NothingUsedAfterFree: does not cover the channel of a subscriber between lookup and
  confirmation, because it may be freed there; `PubSubRuns.LookedUpChannelIsThere` says when it is not.
- ClusterFraming: what the handlers do with a message, and the connections themselves.
- Glob.GlobMatch: the pattern has closed classes and no trailing backslash, and the name no NUL byte; other
  inputs are not modelled.
- OrderedSet: `pop`, and what a set does once its attack flag is set. Running out of memory and the fatal exit of
  a rehash are the result `alive == false`. Hash types other than integers.
- OrderedSet.RunHistory: leaves out removals of the last-inserted entry, after which the set may be out of
  order; `OrderedSet.Set.Remove` says when it is not. With more entries than `Room` says, whether a map is
  found for them depends on how their hashes spread, and nothing is said.
- PacketQueue: hooks other than the default ones and their way of sending files
  (`fio_sock_write_from_fd`), calls that meet a held socket lock, and 65535 or more waiting packets.
- NumberText.Ltoa: does not cover the smallest number in signed bases, whose negation overflows, which C
  leaves undefined.
- NumberText.PrintSigned: the same.
- Numbers.ReadRareBases: does not say what is read when the digits mean 2^63 or more in decimal, where the
  reader clamps or wraps around.
- DeferQueue.TaskQueue.FreeBlocks: counts the blocks; that this place gives them to `free` and others to
  `fio_free` (ext/iodine/fio.c:1270 and 1284) is not modelled.
- DeferQueue.TaskQueue.Clear: the same.
- NumberText.Atol: numbers with too many digits are modelled but nothing further is proved of them;
  floating-point conversion is not part of this model.
- JsonDocuments.DocumentIsRead: the numbers are integers of at most 18 digits without leading zeros; floats and
  longer integers are not among the values.
- JsonParse: number conversion, `\u` escapes and the callbacks' answers are parameters, and numbers that
  are cut in two by a buffer's end are not put together.
- Base64 decoding, the hashes, the string and array helpers.
- The embedded linked list as a structure of its own: its users are modelled with the list they hold.
