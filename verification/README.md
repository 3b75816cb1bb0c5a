# Verification of videostreamer

Models of the parts of videostreamer that are hard to get right, and proofs about
them.  `dafny verify dfyconfig.toml` checks everything.

**The JSON tokenizer** (`cmd/alert_server/jsmn.h`, built as `clients.c` builds it:
non-strict, no parent links).
`JsmnLexer` describes single lexemes, `JsmnModel` the parser state and one whole
`jsmn_parse` call as functions (`Step`, `Run`, and `CountRun` for `tokens == NULL`).
`Jsmn.Parser` is the C code itself, in place over `pos`, `toknext`, `toksuper` and the
token array; its methods are proved to compute exactly those functions.  On top of them:

* `JsmnInvariants`: the shape of every reachable token array, on any input and after any
  error; conservation of sizes; what follows a string token.
* `JsmnModes`: resuming after `JSMN_ERROR_NOMEM`, more tokens, counting mode.
* `JsmnGrammar`: what jsmn takes for a lexeme, written out on the text alone, and the
  proof that the scanning code reads exactly that.
* `JsmnAcceptance`: a fresh parser succeeds exactly on texts that lex and whose brackets
  form a type-matching Dyck word.
* `JsmnReference`: jsmn with an explicit stack of open brackets, which the backward scans
  refine on every text.
* `Json`, `JsonLayout`, `JsmnRoundTrip`: RFC 8259 texts with all their whitespace
  (sections 2 to 7), the preorder token layout of a value, and the round trip.
* `JsmnLinked`, `JsmnLinkedParser`: the `JSMN_PARENT_LINKS` build as functions and in
  place, with its own round trip.  `JsmnLockstep` runs both builds side by side: on every
  text whose lexemes come in order, RFC 8259 or not, cut off or not, they agree for every
  array size, though in between their `toksuper` values differ.

**Its consumer** (`cmd/alert_server/clients.c`).  `AlertData.Client` patches NULs into the
buffer and takes them out again as `client_alert_data` does.  Its result is characterised
for every buffer by the tokens of the text, and for RFC 8259 texts by the pairs of the
JSON tree.

**The encoder protocol** (`videostreamer.go`).  `EncoderModel` has the encoder goroutine
and every `packetWriter` as one state machine whose steps are single shared accesses:
locks, channels, handles, and failing or succeeding calls.  `EncoderClient` is what is
kept about one client, `EncoderInvariant` shows every step of anyone keeps it, and
`EncoderSafety` states the consequences for every event sequence, that is every
interleaving and every failure pattern.  `EncoderBlocking` says exactly when the encoder
and a writer wait for ever, `EncoderRuns` exactly when the encoder gives up and why a
client is dropped, `EncoderProgress` which packets are written and from which input, and
`EncoderWaiting` that there is no other deadlock and every round ends.

**The timestamps** (`videostreamer.c`, `vs_write_packet`).  `Timestamps.WritePacket` does the
repair and the rescaling in place; the theorems are about whole runs of packets.

**The registries** (`cmd/alert_server/streams.c`, `clients.c`).  `Registry.Streams` is the
intrusive doubly linked list; `Registry` proves one recorder per camera under every
interleaving.

**The escaper** (`cmd/alert_server/str.c`) is `Escape`.

## What turned out not to hold

* `writePacketToClients` calls `cleanupClient` while it holds `client.mutex`, so a client
  whose output cannot be opened is not cleaned up: the encoder waits for its own lock and
  stops for good.  It does so in exactly the runs in which some `openOutput` fails and the
  encoder takes one more step (`StuckIff`, `StuckForever`; `FailingOpen` is such a run, on
  the first packet).  Everything in `EncoderSafety` still holds of them.
* A `packetWriter` whose first step comes after `cleanupClient` has finished ranges over a
  nil channel and never ends, exactly then (`BlockedIff`, `BlockedForever`; `LateWriter` is
  such a run).  It holds nothing: its clones have all been freed (`AllFreed`).
* Output timestamps increase on every non-negative input exactly when the output base is
  at least as fine as the input base (`IncreasesIffFine`), and on every input exactly when
  the bases are the same unit (`IncreasesIffSame`), because `last_dts` is stored rescaled
  and compared unrescaled.
* The buffer of `straddslashesdup` fits every string exactly when the quote is not NUL
  (`BufferFitsIffQuoteNotNul`), and a given string exactly when the quote is not NUL or
  some character is not a backslash (`FitsIff`).
* The counting mode accepts exactly the texts that lex (`CountsIffLexes`), so its count is
  the token call's result exactly when the brackets balance (`CountIsResultIffDyck`).
* The two builds of jsmn differ on some text whose lexemes are out of order
  (`BuildsDifferOffGrammar`).

## Model

| member | source | states |
|---|---|---|
| Jsmn.Parser.constructor | cmd/alert_server/jsmn.h:459-463 | jsmn_init leaves pos and toknext 0 and toksuper -1 |
| Jsmn.Parser.AllocToken | cmd/alert_server/jsmn.h:106-119 | hands out the next token with start and end -1, size 0 and its type untouched, or -1 with nothing changed when the array is used up; no other token changes |
| Jsmn.Parser.ScanPrimitive | cmd/alert_server/jsmn.h:141-166 | stops on the first terminator, or returns INVAL with pos restored at a character outside 32..126 |
| Jsmn.Parser.ParsePrimitive | cmd/alert_server/jsmn.h:135-188 | stores exactly one token spanning to the first terminator with pos on its last character; INVAL on a character outside 32..126; NOMEM or INVAL put pos back and change nothing |
| Jsmn.Parser.SkipHex | cmd/alert_server/jsmn.h:239-253 | accepts a \u escape iff the next four characters, or those up to the end, are hexadecimal, and stops on the last one |
| Jsmn.Parser.ScanString | cmd/alert_server/jsmn.h:197-262 | finds the closing quote across all escapes, or returns INVAL or PART with pos restored |
| Jsmn.Parser.ParseString | cmd/alert_server/jsmn.h:193-263 | stores exactly one token between the quotes; every error restores pos and leaves the tokens alone |
| Jsmn.Parser.OpenBracket | cmd/alert_server/jsmn.h:281-307 | counts the new token under toksuper and makes it toksuper, or NOMEM with nothing changed |
| Jsmn.Parser.ScanOpen | cmd/alert_server/jsmn.h:323-358 | the backward loop returns the last unclosed token below its start, or -1 |
| Jsmn.Parser.CloseBracket | cmd/alert_server/jsmn.h:336-359 | closes the last unclosed token if its type matches and moves toksuper to the next one below, else INVAL with nothing changed |
| Jsmn.Parser.NextMember | cmd/alert_server/jsmn.h:379-396 | a comma under a key moves toksuper to the last unclosed container and does nothing else |
| Jsmn.Parser.ReadLeaf | cmd/alert_server/jsmn.h:361-368 | one string or primitive token, counted under toksuper, or an error with the whole state as before |
| Jsmn.Parser.Turn | cmd/alert_server/jsmn.h:273-441 | one turn of the switch equals Step on the abstract state, and an error leaves that state as it was |
| Jsmn.Parser.CountTurn | cmd/alert_server/jsmn.h:273-441 | one turn with tokens == NULL consumes the same lexeme and allocates nothing |
| Jsmn.Parser.Parse | cmd/alert_server/jsmn.h:268-453 | the whole call, from any parser state, returns and leaves exactly what Run (or, for NULL, CountRun) says; unallocated array entries keep their contents |
| Jsmn.Parser.TokenizeAll | cmd/alert_server/jsmn.h:273-450 | the token-mode loop with its final scan equals Run |
| Jsmn.Parser.CountAll | cmd/alert_server/jsmn.h:273-286 | the counting loop equals CountRun |
| JsmnModel.LastOpen | cmd/alert_server/jsmn.h:340-358 | the scan's result is the greatest unclosed index below n, or -1 iff there is none |
| JsmnModel.LastOpenContainer | cmd/alert_server/jsmn.h:386-394 | likewise among objects and arrays |
| JsmnModel.Step | cmd/alert_server/jsmn.h:273-441 | keeps toksuper in range, always advances inside the input, fails only with a negative code |
| JsmnGrammar.StringFound | cmd/alert_server/jsmn.h:203-259 | a string's closing quote is at e exactly when the text up to e is plain characters, backslashes before one of " \ / b f r n t, and \u with four hexadecimal digits |
| JsmnGrammar.StringInvalid | cmd/alert_server/jsmn.h:235-257 | a string is refused exactly when such units lead to a backslash before anything else, or to a \u with a non-digit among its first four characters |
| JsmnGrammar.StringPartial | cmd/alert_server/jsmn.h:261-262 | and is partial exactly when they lead to the end of the input or into an escape cut off by it |
| JsmnGrammar.PrimitiveFound | cmd/alert_server/jsmn.h:143-171 | a primitive ends at e exactly when only characters 32 to 126 other than tab, return, newline, space, comma, colon and closing brackets precede e, and one of those or the end of the input is there |
| JsmnGrammar.PrimitiveInvalid | cmd/alert_server/jsmn.h:162-165 | it is refused exactly when it runs into another character |
| JsmnGrammar.LexReads | cmd/alert_server/jsmn.h:273-441 | the lexer reads exactly the lexemes so spelt, with their spans |
| JsmnGrammar.LexPart | cmd/alert_server/jsmn.h:261-262 | -3 exactly on a string that is cut off |
| JsmnGrammar.LexInvalid | cmd/alert_server/jsmn.h:162-165 | -2 exactly on a string with a bad escape or a character no primitive can hold |
| JsmnGrammar.AcceptsSound | cmd/alert_server/jsmn.h:268-453 | unless NOMEM, and never with an array as long as the text, a call succeeds iff the text is a sequence of such lexemes whose brackets form a Dyck word |
| JsmnInvariants.RunReadsNoNul | cmd/alert_server/jsmn.h:273-275 | no call ever reads past a NUL or past len |
| JsmnInvariants.StepKeepsShape | cmd/alert_server/jsmn.h:280-441 | each turn keeps: starts strictly increase, closed spans lie in the input read and are nested or disjoint, everything after an unclosed token lies inside it |
| JsmnInvariants.RunKeepsShape | cmd/alert_server/jsmn.h:268-453 | so every reachable parser state has that shape, error exits included |
| JsmnInvariants.CloseEndsInnermost | cmd/alert_server/jsmn.h:340-358 | a closing bracket ends the innermost unclosed token: all later tokens are closed and inside its new span, and toksuper becomes the innermost remaining one |
| JsmnInvariants.RunRecords | cmd/alert_server/jsmn.h:268-453 | from any consistent history, the tokens' sizes count exactly the creations under them |
| JsmnInvariants.SizesConserved | cmd/alert_server/jsmn.h:291-299 | on any input the sizes sum to toknext minus the tokens created with toksuper == -1, and token i's size is the number of tokens created under it |
| JsmnInvariants.LeafChildrenFollow | cmd/alert_server/clients.c:205-207 | a string or primitive of size n owns exactly the n tokens after it, so t[i+1] beside a string of size 1 is allocated and its only child |
| JsmnModes.ResumeAfterNomem | cmd/alert_server/jsmn.h:177-181 | a NOMEM call repeated on the same parser with a larger array gives the code, state and tokens of one call with the larger array |
| JsmnModes.RunGrowingIsOneRun | cmd/alert_server/jsmn.h:211-215 | any number of such retries equals one call |
| JsmnModes.MoreTokensChangeNothing | cmd/alert_server/jsmn.h:106-112 | a call that was not short of tokens is unchanged by having more |
| JsmnModes.TokensNeeded | cmd/alert_server/jsmn.h:287-290 | never more tokens than characters, so an array as long as the text never gives NOMEM |
| JsmnModes.NomemIffTooFew | cmd/alert_server/jsmn.h:106-112 | NOMEM exactly when the array is smaller than the number of tokens the text takes |
| JsmnModes.CountAgreesFrom | cmd/alert_server/jsmn.h:284-290 | counting and token mode agree from any parser state |
| JsmnModes.CountingModeAgrees | cmd/alert_server/jsmn.h:443-452 | a successful token call returns what the NULL call returns; with at least the counted tokens no NOMEM |
| JsmnModes.CountLeaves | cmd/alert_server/jsmn.h:273-286 | the NULL call leaves pos at the end of the input or on the lexeme refused, and toksuper as it was unless a colon was read |
| JsmnModes.CountingModeSkipsBrackets | cmd/alert_server/jsmn.h:310-312 | an example: a text the NULL call accepts and the token call refuses |
| JsmnReference.ScansAreAStack | cmd/alert_server/jsmn.h:280-396 | on every text and with every array, the code, pos, tokens and toksuper are those of a parser that keeps a stack of open brackets instead of scanning back |
| JsmnAcceptance.DyckIsSkipped | cmd/alert_server/jsmn.h:308-360 | the stack discipline of the closing code passes over a Dyck word without effect |
| JsmnAcceptance.StepStack | cmd/alert_server/jsmn.h:280-360 | the unclosed tokens of any reachable state behave as the stack of a bracket matcher, turn by turn |
| JsmnAcceptance.AcceptsDyck | cmd/alert_server/jsmn.h:268-453 | unless NOMEM, success iff every lexeme lexes and the brackets outside strings form a type-matching Dyck word |
| JsmnAcceptance.CountsIffLexes | cmd/alert_server/jsmn.h:273-286 | from any parser state the NULL call succeeds iff every lexeme lexes |
| JsmnAcceptance.CountIsResultIffDyck | cmd/alert_server/jsmn.h:310-312 | with as many tokens as the NULL call counts, the token call returns that count iff the brackets form a Dyck word |
| JsmnAcceptance.ContainersSpanPairs | cmd/alert_server/jsmn.h:304-358 | on success each container token spans a matching bracket pair from start to end - 1 |
| JsmnAcceptance.SuccessClosesAll | cmd/alert_server/jsmn.h:443-452 | on success the code is the number of tokens and none is unclosed |
| JsmnRoundTrip.RunValue | cmd/alert_server/jsmn.h:268-453 | tokenizing any value anywhere in a text appends its preorder layout, counts one child and restores toksuper's container |
| JsmnRoundTrip.RoundTrip | cmd/alert_server/jsmn.h:268-453 | for every RFC 8259 text with any whitespace: the node count, exactly the preorder layout (spans and sizes), and the tokens rebuild the value |
| JsmnRoundTrip.RoundTripNomem | cmd/alert_server/jsmn.h:287-290 | on RFC 8259 text NOMEM iff the array is smaller than the node count |
| JsonLayout.RebuildValue | cmd/alert_server/jsmn.h:268-453 | reading the value back from tokens and text inverts the layout |
| JsmnLinkedParser.AllocToken | cmd/alert_server/jsmn.h:106-119 | as in the default build, with parent set to -1 |
| JsmnLinkedParser.OpenBracket | cmd/alert_server/jsmn.h:281-307 | as in the default build, with the new token linked to toksuper |
| JsmnLinkedParser.PlaceLeaf | cmd/alert_server/jsmn.h:177-186 | a leaf is stored linked to toksuper, or NOMEM with nothing changed |
| JsmnLinkedParser.ParsePrimitive | cmd/alert_server/jsmn.h:135-188 | one linked token up to the first terminator, or an error with pos restored and nothing changed |
| JsmnLinkedParser.ParseString | cmd/alert_server/jsmn.h:193-263 | one linked token between the quotes, or an error with pos restored and nothing changed |
| JsmnLinkedParser.ReadLeaf | cmd/alert_server/jsmn.h:361-368 | string or primitive as LStep says, counted under toksuper |
| JsmnLinkedParser.CloseBracket | cmd/alert_server/jsmn.h:313-335 | the loop up the parents closes the first unclosed token on the chain, or refuses, as the function Walk says |
| JsmnLinkedParser.NextMember | cmd/alert_server/jsmn.h:383-384 | a comma under a key follows one parent link |
| JsmnLinkedParser.Turn | cmd/alert_server/jsmn.h:273-441 | one turn of the switch equals LStep |
| JsmnLinkedParser.AnyOpen | cmd/alert_server/jsmn.h:443-450 | the final scan finds whether a token is unclosed |
| JsmnLinkedParser.Parse | cmd/alert_server/jsmn.h:268-453 | the whole call in token mode, from any parser state, returns and leaves exactly what LRun says; unallocated entries keep their contents |
| JsmnLinked.WalkFindsInnermost | cmd/alert_server/jsmn.h:317-335 | when the links pass through the innermost unclosed token, walking up them reaches the token the scan finds |
| JsmnLinked.LRunValue | cmd/alert_server/jsmn.h:268-453 | the linked build appends the same layout with the true parents |
| JsmnLinked.LinkedRoundTrip | cmd/alert_server/jsmn.h:268-453 | for every RFC 8259 text with enough tokens: the node count and the preorder layout, each token with its true parent |
| JsmnLockstep.LockStep | cmd/alert_server/jsmn.h:273-441 | on a text whose lexemes come in order, one turn takes both builds from a pair of states in step to such a pair, or both refuse with one code |
| JsmnLockstep.OrderlyAgree | cmd/alert_server/jsmn.h:313-395 | so on every such text and for every array size both return the same code and leave the same pos, type, start, end and size of all tokens; the toksuper values are equal or on a container and a key of it |
| JsmnLockstep.OrderlyDocument | cmd/alert_server/jsmn.h:268-453 | every RFC 8259 text is one |
| JsmnLockstep.BuildsAgree | cmd/alert_server/jsmn.h:313-395 | hence on every RFC 8259 text the builds agree, arrays too small for it included |
| JsmnLockstep.SupsDiffer | cmd/alert_server/jsmn.h:313-359 | a run in which the two toksuper values differ |
| JsmnLinked.BuildsDifferOffGrammar | cmd/alert_server/jsmn.h:313-359 | a text the linked build accepts and the scanning build refuses |
| AlertData.Client.ReadPair | cmd/alert_server/clients.c:209-234 | compares exactly the key and value text between the NUL patches and leaves the buffer byte for byte unchanged |
| AlertData.Client.ReadPairs | cmd/alert_server/clients.c:205-236 | the token walk equals WalkTokens, reading allocated tokens only |
| AlertData.Client.AlertData | cmd/alert_server/clients.c:192-239 | on arbitrary bytes: the result and camera address are those of Verdict and the buffer is unchanged |
| AlertData.SuccessIsReadable | cmd/alert_server/clients.c:200-207 | whatever jsmn_parse accepts, each pair's two terminating positions are distinct and inside the buffer, and the key and value hold no NUL |
| AlertData.CStringIsSlice | cmd/alert_server/clients.c:211-214 | a NUL at a token's end makes the C string at its start the token's text |
| AlertData.ReportedIff | cmd/alert_server/clients.c:200-203 | the call goes on exactly for texts jsmn accepts that take 1 to 64 tokens, the first an object that is not empty |
| AlertData.WalkRanks | cmd/alert_server/clients.c:218-231 | on any tokens a successful call can leave: 2 iff a string with one childless child reads Event/MotionDetect, else 1 iff one reads Type/Alarm, else 0 |
| AlertData.WalkAddress | cmd/alert_server/clients.c:218-222 | the last such pair named Address whose hex is not 0 decides the address |
| AlertData.VerdictOfText | cmd/alert_server/clients.c:192-239 | for every buffer: -1 and the address untouched exactly for texts that are not so accepted; else the result and the address by those pairs |
| AlertData.WalkValue | cmd/alert_server/clients.c:205-236 | walking the tokens of a value visits exactly its leaf pairs, in document order |
| AlertData.NotesRank | cmd/alert_server/clients.c:218-231 | visiting them leaves 2, 1 or 0 by which pairs occur, whatever their order |
| AlertData.NotesOfPairs | cmd/alert_server/clients.c:205-236 | the walk over a value is one step for each of its leaf pairs, in document order |
| AlertData.NoteAllAddress | cmd/alert_server/clients.c:218-222 | the address left is that of the last pair named Address whose hex is not 0, else the one given |
| AlertData.VerdictOfDocument | cmd/alert_server/clients.c:192-239 | on RFC 8259 text: -1 with the address untouched unless a non-empty object of at most 64 nodes; else 2 iff Event/MotionDetect occurs as a leaf pair at any depth, else 1 iff Type/Alarm does, else 0, and the address is that of the last leaf pair that names one |
| EncoderModel.NextInRange | videostreamer.go:143-218 | no step refers to a client or an input that does not exist |
| EncoderClient.ServeKeeps | videostreamer.go:309-367 | each access of one client's share of a round (open, clone, send, too slow) keeps the client's invariant |
| EncoderClient.CleanKeeps | videostreamer.go:237-270 | each access of cleanupClient keeps it, with the writer still running |
| EncoderClient.WriteKeeps | videostreamer.go:372-389 | each access of packetWriter keeps it, wherever the encoder is |
| EncoderInvariant.EncoderStepKeeps | videostreamer.go:143-235 | every encoder step keeps the invariant of the whole system |
| EncoderInvariant.WriterStepKeeps | videostreamer.go:372-389 | every writer step keeps it |
| EncoderInvariant.ExecKeeps | videostreamer.go:143-389 | so do all event sequences |
| EncoderSafety.SentInOrder | videostreamer.go:309-389 | packets written are a prefix of those enqueued; those are consecutive video packets from the one that opened the output; between rounds a listed client has been offered all of them |
| EncoderSafety.NothingLost | videostreamer.go:354-389 | while the output is there and the writer has not quit, enqueued = written, then the writer's packet, then the channel, which never exceeds 32 |
| EncoderSafety.NothingAfterCleanup | videostreamer.go:237-270 | once cleanup has cleared the output nothing is written or enqueued on any continuation; before, the records only grow |
| EncoderSafety.ClonesConserved | videostreamer.go:345-387 | every clone is in exactly one of channel, writer's hand, encoder's hand (send, slow client, drain) and freed; none is freed twice |
| EncoderSafety.AllFreed | videostreamer.go:253-269 | once cleanup and the writer are through, every clone of the client has been freed |
| EncoderSafety.OneInput | videostreamer.go:146-217 | at most one input is open ever; none at the loop head without clients; none after return |
| EncoderSafety.UsesAreSafe | videostreamer.go:146-389 | every read, open, write, destroy, close and send uses a handle that is live or checked for nil and that no one destroys meanwhile; no channel is closed twice or sent to after closing, no output or channel is overwritten |
| EncoderSafety.HeldIffListed | videostreamer.go:146-270 | at the loop head a listed client's pipe is open and any other client's pipe, output and channel are released; after return everyone's are |
| EncoderBlocking.BlockedIff | videostreamer.go:372-372 | a writer comes to block on a nil channel exactly when it evaluates PacketChan after cleanupClient has let go of its client |
| EncoderBlocking.BlockedForever | videostreamer.go:372-372 | and then blocks on every continuation |
| EncoderBlocking.LateWriter | videostreamer.go:237-270 | a run from the start in which that happens |
| EncoderBlocking.StuckIff | videostreamer.go:318-326 | over whole runs: the encoder ends up waiting for a mutex it holds iff some openOutput of the run failed and the encoder took one more step |
| EncoderBlocking.StuckForever | videostreamer.go:237-238 | no writer step releases that mutex, so the encoder never moves again |
| EncoderBlocking.FailingOpen | videostreamer.go:318-326 | a run from the start in which that happens on the first packet |
| EncoderRuns.ShutIff | videostreamer.go:171-198 | over whole runs: the encoder gives up iff some open or some read of the input failed; a frame that is not video does not end it |
| EncoderRuns.DroppedIff | videostreamer.go:309-367 | a client has been dropped iff its output could not be opened, a packet not be cloned for it, its channel held 32 packets when one was to be sent, or the encoder gave up |
| EncoderRuns.ListedIff | videostreamer.go:309-367 | so between rounds the list is exactly the clients none of that happened to |
| EncoderRuns.ArrivesIff | videostreamer.go:152-164 | a client arrives iff the encoder looks for one and one is waiting, and goes to the end of the list |
| EncoderProgress.OneInputForAll | videostreamer.go:166-217 | the list is in order of arrival; the input is closed only when the list is empty or the encoder gives up; every client streamed to is written from the one open input |
| EncoderProgress.GivesUpIff | videostreamer.go:372-389 | while a client is streamed to, its writer has given up iff some vs_write_packet of its failed |
| EncoderProgress.AllWritten | videostreamer.go:372-389 | a client none of whose writes failed loses nothing: enqueued is written, in hand or in the channel, and all written once both are empty |
| EncoderWaiting.EncoderWaits | videostreamer.go:237-238 | when the encoder cannot move it has returned, waits for its own lock, or a writer that holds what it waits for can move |
| EncoderWaiting.WriterWaits | videostreamer.go:373-377 | when a writer that has not ended cannot move, its channel is empty and open or the encoder can move |
| EncoderWaiting.NoDeadlock | videostreamer.go:143-389 | at every point of every run some one can move unless the encoder has returned or waits for its own lock |
| EncoderWaiting.WorkShrinks | videostreamer.go:309-367 | every encoder step in a round or on the way out leaves less to do, so rounds end |
| EncoderWaiting.WriterGetsOn | videostreamer.go:373-387 | every step of a writer with a packet brings it nearer to the next |
| EncoderWaiting.LooksFirst | videostreamer.go:161-180 | before it opens an input or reads, the encoder has looked for new clients and found no more |
| Timestamps.Output.constructor | videostreamer.c:268-268 | a fresh output has last_dts unset |
| Timestamps.WritePacket | videostreamer.c:349-487 | for NULL arguments, missing streams and every combination of unset stamps: the result, the packet's new pts, dts, duration, pos and stream index, and the new last_dts (stored also when the write fails) |
| Timestamps.EmittedIff | videostreamer.c:404-460 | the stamps handed on are exactly: the dts, or last_dts + 1 if the dts is unset or not above it, and the pts, moved to last_dts + 1 with it if unset or between them, both rescaled; 0 for what is unset |
| Timestamps.RescaleIff | videostreamer.c:448-460 | r is the rescaled value of a iff r units of the output base are nearest to a units of the input base, ties away from zero, INT64_MIN and INT64_MAX standing for themselves |
| Timestamps.RescaleDurationIff | videostreamer.c:462-463 | likewise for the duration, without the exception |
| Timestamps.RoundIsNearest | videostreamer.c:448-460 | the rescale result is within half a unit of the exact quotient, ties away from zero |
| Timestamps.RoundMonotone | videostreamer.c:448-460 | rescaling is monotone, across zero too |
| Timestamps.SameBaseClosedForm | videostreamer.c:404-473 | with bases of the same unit the dts written strictly increase, dominate the input, and out[i] = max over j <= i of in[j] + (i - j), a first unset dts counting as 0 and later ones as no constraint |
| Timestamps.SameBaseLeast | videostreamer.c:404-473 | that is the pointwise least such sequence |
| Timestamps.FineIncreases | videostreamer.c:404-473 | when from.num * to.den >= to.num * from.den, non-negative or unset dts give strictly increasing output |
| Timestamps.IncreasesIffFine | videostreamer.c:404-473 | and all such runs increase exactly then |
| Timestamps.IncreasesIffSame | videostreamer.c:404-473 | all runs of dts of any sign increase exactly when the two products are equal |
| Timestamps.NegativeCanGoBack | videostreamer.c:404-473 | an example: a run of negative dts into a finer base that goes back |
| Timestamps.PtsNotBelowDts | videostreamer.c:404-460 | a packet leaves with pts >= dts if it came so with both set, or if the repair fired and it did not come with pts below dts |
| Timestamps.PtsNotBelowDtsIff | videostreamer.c:404-460 | with bases of the same unit, exactly when |
| Registry.FindIs | cmd/alert_server/streams.c:32-38 | the search finds the first entry of that address, or the length |
| Registry.AlertKeepsOne | cmd/alert_server/streams.c:24-64 | process_stream keeps one stream per camera and one live recorder per stream, whether or not memory and thread are to be had |
| Registry.ExitKeepsOne | cmd/alert_server/streams.c:196-199 | a recorder's exit removes its own stream and nothing else of that invariant |
| Registry.AlwaysOneRecorderEach | cmd/alert_server/streams.c:24-64 | hence at every point of every interleaving |
| Registry.AlertExactly | cmd/alert_server/streams.c:32-60 | the camera's stream gets the time of the alert and nothing else changes, or there is none and one is put first iff there is memory and a thread |
| Registry.ExitExactly | cmd/alert_server/streams.c:196-199 | the list without that recorder's stream, the rest in its order |
| Registry.AlertServed | cmd/alert_server/streams.c:32-56 | an alert that finds memory and a thread leaves its camera with a stream updated now, the other cameras' unchanged |
| Registry.Streams.InsertFirst | cmd/alert_server/streams.c:87-93 | on a well-formed doubly linked list: insertion in front of the abstract sequence |
| Registry.Streams.Remove | cmd/alert_server/clients.c:114-122 | deletion of exactly that node, at the head, in the middle or at the end, links well formed |
| Registry.Streams.Seek | cmd/alert_server/streams.c:32-38 | the loop over next pointers equals Find |
| Registry.Streams.Add | cmd/alert_server/streams.c:40-56 | a new zeroed node at the head, or the list as before if its thread does not start |
| Registry.Streams.Touch | cmd/alert_server/streams.c:36-36 | sets one stream's time and nothing else |
| Registry.Streams.ProcessStream | cmd/alert_server/streams.c:24-64 | the list in memory refines AfterAlert |
| Registry.Streams.FreeStream | cmd/alert_server/streams.c:66-85 | and Without |
| Escape.Straddslashes | cmd/alert_server/str.c:49-59 | writes the escaped string and its terminator into dst and nothing beyond |
| Escape.Straddslashesdup | cmd/alert_server/str.c:61-68 | whenever the escaped string and its terminator fit: a fresh buffer of 2 * strlen + 1 holding them, or null without memory |
| Escape.FitsIff | cmd/alert_server/str.c:64-64 | they fit iff the quote is not NUL or some character is not a backslash |
| Escape.EscapedIff | cmd/alert_server/str.c:53-56 | the output is the one text that unescapes to the input and in which every backslash stands before a backslash or a quote and no quote is without one |
| Escape.EscapedCount | cmd/alert_server/str.c:53-56 | its length is the input's plus one for each backslash and quote; a string with neither is copied |
| Escape.EscapedEnds | cmd/alert_server/str.c:56-56 | a NUL follows, with a backslash before it iff the quote is NUL |
| Escape.UnescapeInverts | cmd/alert_server/str.c:49-59 | unescaping gives the original back |
| Escape.EscapedInjective | cmd/alert_server/str.c:49-59 | two strings with the same escape are the same |
| Escape.EveryQuoteEscaped | cmd/alert_server/str.c:53-56 | every quote in the output ends an odd run of backslashes |
| Escape.LiteralIsWhole | cmd/alert_server/clients.c:179-179 | inside a quoted literal the escaped text ends where it should, whatever follows |
| Escape.BufferFitsIffQuoteNotNul | cmd/alert_server/str.c:64-64 | 2 * strlen + 1 bytes suffice for every string iff the quote is not NUL |

## Left out

- Timestamps.SameBaseClosedForm: is about the sequence over unbounded integers; it is the C one as long as no dts, the repair's increments counted, reaches INT64_MAX. What signed overflow would do is not modelled.
- Timestamps.FineIncreases: is about the sequences over unbounded integers; they are the C ones as long as no call leaves the int64_t range.
- Timestamps.WritePacket: promises nothing of the stamps when a stamp or the duration leaves the int64_t range, where C's addition overflows and ffmpeg's rescaling is foreign code.
- Escape.Straddslashesdup: is not called with a NUL quote on a string of nothing but backslashes; there C writes past its buffer.
- Jsmn.Parser.Parse: positions are unbounded integers, so a text is taken to be shorter than 2^31 characters, where `int start` and `unsigned pos` agree.
- AlertData.Client.AlertData: `strtol` on the Address value is an arbitrary function from text to a number; `camera_ip_str` and `inet_ntoa` are not part of this model.
- EncoderSafety.AllFreed: says nothing of a writer that has not finished; no fairness is claimed: the encoder waits for a mutex a writer may hold across a blocking write, and EncoderWaiting only says that the writer can then move.
- JsmnLockstep.OrderlyAgree: goes one way; out-of-order texts on which the builds happen to agree are not characterised.
- The encoder is a state machine over values and not a set of Go objects: steps of different goroutines interleave, which a Dafny class with methods cannot express.
- ffmpeg calls (open, probe, header, trailer, reading and writing frames) succeed or fail arbitrarily; only the rescaling arithmetic is exact.
- `JSMN_STRICT`: not part of the build.
- A character is one position of a sequence; bytes above 126 are refused in primitives and allowed in strings, as in C.
- `ServeHTTP`, `streamRequest`, FastCGI, flags, and the bytes in the OS pipe: a client is an arrival and a writer that may fail.
- `max_clients` and `max_clients_per_ip`: the counts are only logged.
- `stream_thread`'s recording loop: it tests an idle time it read before the packet, so an alert may come too late to prolong a recording, and nothing is claimed about that.
- `client_thread`'s socket reading and the list of clients: same insert and remove code as the list of streams, under its own mutex.
- `sock.c`, `db_mysql.c`, `conf.c`, `nvr.c`, `tools.c`, logging and `remux_example.c`: plumbing, easy members only.
