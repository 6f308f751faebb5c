# NXTservices: a model and its proofs

This project models the stateful core of NXTservices, a set of services on top of the NXT block
chain, and proves what that core keeps over whole runs. Every file is one part of the program.

| file | part |
|---|---|
| `HashTable.dfy` | the open-addressing table, as a value (`HashSpec`) and as the program runs it (`HashTables`) |
| `HashQueue.dfy` | the ring behind every queue (`RingSpec`, `Rings`) and the two-pass scheduler (`PingPong`) |
| `HashProtocol.dfy` | the packets by which many threads share the tables while history is replayed |
| `CoinTxids.dfy` | the slot of a search, read after the call has returned |
| `Wrappers.dfy` | a value that may be missing; C strings |
| `Words.dfy` | machine words, byte strings, blocks of 64 bytes, padding; what the operations on words mean (`WordLaws`) and what both libtom hash states hold (`Tomcrypt`) |
| `Ripemd160.dfy` | two independent RIPEMD-160 implementations against ISO/IEC 10118-3:2004, clause 7 |
| `Sha256.dfy` | both forms of SHA-256 against FIPS 180-4 |
| `Crc32.dfy` | the table-driven CRC against the shift register of RFC 1952, section 8 |
| `CJsonSpec.dfy`, `CJsonRoundTrip.dfy`, `CJsonMinify.dfy` | what cJSON prints, parses and minifies, when its string parser stays in bounds (`JsonEscapes`), and how these undo each other |
| `CJsonNumbers.dfy`, `CJsonBlanks.dfy` | what numbers with fractions and exponents mean; texts with blanks anywhere between their tokens |
| `CJsonStrings.dfy`, `CJson.dfy` | the printers, parsers and the minifier on buffers of the lengths the program computes |
| `NxtId.dfy` | account ids and satoshi amounts as decimal text modulo 2^64 |
| `JsonCodec.dfy` | the dictionary codec around zlib |
| `LedgerSpec.dfy`, `LedgerRuns.dfy`, `Ledger.dfy` | the asset ledger, its runs, and its accounts with parallel arrays |
| `Funds.dfy` | the gateway's books: one record per coin, one per coin and account (`FundsSpec`, `GatewayFunds`), and what they say of the calls that made them (`FundsMeaning`) |
| `Deposits.dfy` | deposits and the transfers that pay for them |
| `Sweeps.dfy` | which blocks of a coin are processed, how often, and what that credits |
| `Gateway.dfy` | three gateways that crash and replay the NXT chain; redeem requests |

What is mutable in the program is a class or an array here. Each method is proved to do what a
function of the old state says, and the lemmas are about these functions: over every run, every
tree, every text, every message.

The main results:

* The hash table is a finite map over any run with any number of resizes (`RunRefinesMap`), it
  never fails exactly when it starts with at least three slots (`StartSizeExact`), and calls from
  any number of threads are linearizable in the order in which the server takes their packets, even
  though the flag meant as a lock need not exclude anybody and a queue may lose packets
  (`Linearizable`, `OrderIsRealTime`).
* Both RIPEMD-160 libraries, the chunked and the whole-message driver, and both forms of SHA-256
  compute the digest of the standard; the unrolled rounds are proved step by step.
* Parsing undoes printing, wherever blanks stand between the tokens (`PrintThenParse`,
  `BlanksDoNotMatter`), amounts with eight decimals are read exactly (`AmountsAreExact`), minifying
  takes the formatted print to the unformatted one, in place, and the buffers of the printers, of the
  minifier, and of the string parser on what is printed hold what is written to them.
* The three gateways pay at most once for each coin transaction and account in every run in which no
  history thread ends before all that its gateway has paid for was processed again, and ending it
  is safe exactly then (`AtMostOneTransfer`, `SafeExactlyWhenReady`).
* Over any run an output of a coin transaction is credited as often as it is processed with
  confirmations, and the two sweeps over the coin's blocks decide how often that is
  (`CreditedAsConfirmed`, `CreditedTwiceInOverlap`).
* After any transactions an account holds of an asset what came to it less what went away, in the
  transactions' own fields; every asset sums to zero over all accounts, and repeated transactions
  change nothing (`HoldsNet`, `RunIsSound`, `RepeatsAreIgnored`).
* The gateway's books are the sums of what was booked, and `balance_verification` allows exactly what
  does not overdraw them (`TotalsAreBooked`, `AccountsAreBooked`, `VerifiedExactly`).

Some properties that the program's comments or structure suggest are false of its code. They are
proved with the exact condition under which they hold:

* `queue_enqueue` on a full ring that holds something overwrites its oldest item
  (`EnqueueIsFifo`); over a run a ring is a first-in first-out queue exactly when every enqueue finds
  room (`RunIsFifo`), and one that starts with no slot, as the program's do, exactly when every
  enqueue finds it empty (`OneAtATime`).
* `find_coin_txid` reads the slot that a search has returned when the call is over. In a table that
  has not grown since, it gets what a search would find now exactly when no other key has come to
  that slot; in one that has grown, the slot must not have lost the key's record either
  (`FindCoinTxid`). `LaterReadCanBeWrong` is a run in which it gets another key's record.
* `hashprocessing` is tested and set in two steps. It excludes other callers in exactly the runs in
  which every call that sets it finds it still clear (`FlagExcludesExactly`); `FlagIsNoLock` is a
  run in which two calls hold it.
* A restarted gateway can pay again. Ending its replay is safe exactly when every transaction that it
  has paid for was named in what it has processed since its start (`SafeExactlyWhenReady`). A block
  that fails twice to be delivered ends the replay early (NXTprotocol.c:574-575), a transaction that
  is not delivered is passed over (NXTprotocol.c:470), and either can break that; a replay that ends
  at once breaks it as soon as there was a payment (`EarlyEndForgets`).
* Even a complete replay ends before the block at which it was told to stop (NXTprotocol.c:554), so a
  payment that is named only in the last block, or in none, can be made again after a restart; the
  restart is safe exactly when every payment is named before (`SafeExactlyWhenSettled`,
  `LastBlockIsNotReplayed`). The other thread begins with that very block, and the restart is safe
  too when that thread is done with it before the replay ends (`SafeWhenStopBlockIsLive`). The
  configuration in libwebsocketsglue.h:158 replays nothing; there a gateway that has paid for
  anything must not be restarted (`SafeWithoutHistory`).
* A gateway does not pay for every output that it owes, as a coin transaction has one mark for all its
  outputs. Until its next restart a gateway can pay for an output exactly when the transaction is not
  marked (`PayableExactly`). So of several outputs of one transaction that the same gateway owes, to
  one account or to many, one is paid at most (`SecondOutputIsNeverPaid`, with the run
  `OneOfTwoOutputs`), and none once anybody's transfer has named the transaction in its comment,
  which is believed whoever sent it (multigateway.h:550, `ForeignTransferMarks`).
* A block that is processed twice has its deposits credited twice, because its records are made
  anew. Every start that has history to sweep does that: the live sweep looks back `min_confirms`
  blocks, over heights that the history sweep has confirmed already. Exactly these heights are
  credited twice, all others once (`OverlapIsTwice`, `CreditedTwiceInOverlap`, with the least run in
  `OverlapExists`); each single record is credited once (`EachCreditedOnce`).
* `parse_string` leaves its text or its buffer on some texts, `"\u"abcde` among them
  (`OverrunExists`). `ReadString` says on which, and `WellEscapedFits` that no text is one of them
  whose every `\u` has four characters inside the string after it.
* `stripstr` removes the quotes that the dictionary substitution looks for, so that substitution
  never fires (`NothingSubstituted`), and `decode_json` tells zlib the wrong source length, so
  decoding succeeds exactly when compression made the stripped text no longer (`DecodeEncode`).
* `add_satoshis_json` prints amounts from 2^63 on with a minus sign; all of them but one are read
  back wrong (`SatoshisBack`).

## Model

| member | source | states |
|---|---|---|
| HashSpec.RunRefinesMap | utils/jl777hash.h:206-317 | over any run of additions and searches, with any number of resizes, a valid table has the contents and gives the answers of a finite map: a search lands on a key's record iff it was added, an addition creates only the first time |
| HashSpec.SameRecordForEver | utils/jl777hash.h:278-317 | once a key is in a valid table, every later addition in any run of that table, resizes included, returns its record with the created flag 0, and every later search finds that record |
| HashSpec.StartSizeExact | utils/jl777hash.h:10-13 | no run from an empty table returns a null record or HASHSEARCH_ERROR, exactly when the table starts with 3 slots or more; the program starts with 100 |
| HashSpec.SmallTableFills | utils/jl777hash.h:294-299 | a table of one or two slots fills up before the load test fires: a run that ends in failure |
| HashSpec.SearchIsLookup | utils/jl777hash.h:206-230 | where a search ends, in terms of the map the slots stand for: an occupied slot iff the key is in it, and with that record |
| HashSpec.InsertIsUpdate | utils/jl777hash.h:304-311 | a record put where the search ended updates the map and keeps linear probing's invariant |
| HashSpec.AddIsFirstWins | utils/jl777hash.h:278-317 | one addition, resize included: the table stays valid, the map gets the key unless it had it, and the record returned is the map's |
| HashSpec.ResizeKeeps | utils/jl777hash.h:232-276 | growing by three keeps the map and the count, and leaves the table below its load limit |
| HashSpec.MovedStep | utils/jl777hash.h:242-255 | moving one record extends the moved part, so the error branch at line 253 is never taken |
| HashSpec.SpareSlot | utils/jl777hash.h:294-299 | every reachable table has an empty slot |
| HashSpec.GatherIsContents | utils/jl777hash.h:178-204 | a forced gather has as many records as slots are occupied and as the map has keys, and exactly the map's records |
| HashTables.CalcDecimalHash | utils/jl777hash.h:136-148 | the loop computes the decimal hash modulo 2^64 |
| HashTables.Hashtable.constructor | utils/jl777hash.h:150-162 | a new table is empty, and valid from three slots on |
| HashTables.Hashtable.Search | utils/jl777hash.h:206-230 | the probing loop returns what the specification's search returns, and counts its probes |
| HashTables.Hashtable.GatherModified | utils/jl777hash.h:178-204 | the two loops collect the records that are modified, or all when forced, and never report a mismatch |
| HashTables.ResizeHashtable | utils/jl777hash.h:232-276 | the new table is the resized one; growing a valid table makes no error report |
| HashTables.MoveRecords | utils/jl777hash.h:242-255 | the loop moves every record, without a report when the old table had no key twice |
| HashTables.CheckMoved | utils/jl777hash.h:260-269 | the checking loop finds every record it looks for |
| HashTables.AddHashtable | utils/jl777hash.h:278-317 | the new table and result are those of the specification; on a valid table, a key of proper length is stored as it is, any other as "123456": the record returned has that key, is created exactly when the key was absent, and is what the new map holds under it, and no error branch is reachable |
| RingSpec.BagOfEnqueue | utils/jl777hash.h:33-55 | in any state of the ring, an enqueue adds its item and drops at most the one it overwrites |
| RingSpec.BagOfDequeue | utils/jl777hash.h:57-80 | in any state of the ring, a dequeue takes away exactly the item it returns |
| RingSpec.DequeueIsFifo | utils/jl777hash.h:57-80 | on an aligned ring a dequeue returns the oldest item |
| RingSpec.EnqueueIsFifo | utils/jl777hash.h:33-55 | on an aligned ring an enqueue appends exactly when there is a free slot or the ring is empty; otherwise it loses the oldest item |
| RingSpec.RunIsFifo | utils/jl777hash.h:33-80 | over any run of enqueues and dequeues an aligned ring holds at every moment what a first-in first-out queue holds, and hands out its items, exactly when every enqueue finds a free slot or nothing in the ring |
| RingSpec.OneAtATime | utils/jl777hash.h:33-80 | over any run from a ring without slots, exactly when every enqueue finds it empty |
| Rings.Queue.Enqueue | utils/jl777hash.h:33-55 | the growing loop and the write do what the specification's enqueue does |
| Rings.Queue.Dequeue | utils/jl777hash.h:57-80 | the read does what the specification's dequeue does |
| PingPong.PingPongQueue.Process | utils/jl777hash.h:104-134 | while actions or other threads add to the first half, as long as that ends, the scheduler terminates with its second half empty; by the sign of what the action returned for it, each item, as the action left it, goes in order to the destination, to the error queue, or to `free`, or stays, also when a target is the first half or both are one |
| PingPong.PingPongQueue.HalfPass | utils/jl777hash.h:111-132 | one iteration empties its half, what is added to it meanwhile included, and routes what the action left of every item by its return value |
| PingPong.PickedSplits | utils/jl777hash.h:114-131 | every item goes to exactly one place |
| PingPong.Conserves | utils/jl777hash.h:104-134 | what is waiting, at the destinations and freed is what was held before and what was added, with the subject of each call replaced by what the call left; the calls are about the waiting items and the added ones, in order, and then about those that stayed |
| HashProtocol.Linearizable | utils/jl777hash.h:319-413 | in every interleaving, each completed call took effect at one place in the server's log, between its enqueue and its return, and returned what a sequential run of the log gives there |
| HashProtocol.OrderIsRealTime | utils/jl777hash.h:382-413 | the log is the dequeue order, has no call twice, yields the tables, and respects real time |
| HashProtocol.CallersAreServed | utils/jl777hash.h:319-413 | from valid tables every completed addition returned a record and every completed search a slot |
| HashProtocol.NoStalePacket | utils/jl777hash.h:340-345 | the server never holds a freed packet, and no queue holds an answered one or one twice |
| HashProtocol.FlagExcludesExactly | utils/jl777hash.h:334-346 | at no moment of a run do two calls hold `hashprocessing` exactly when every call of it that sets the flag finds it still clear; the flag then says whether somebody holds it |
| HashProtocol.FlagIsNoLock | utils/jl777hash.h:334-338 | a run in which two calls hold the flag at once, as each reads it before the other sets it |
| CoinTxids.FindCoinTxid | multigateway/multifind.h:201-211 | in every interleaving, when the slot of a completed search, read at any later moment, holds what a search would find then: without growth exactly when no other key has come to it, and always when the key was there |
| CoinTxids.ReadLater | multigateway/multifind.h:208-211 | the same of two moments of a table |
| CoinTxids.AnotherKeyTakesTheSlot | multigateway/multifind.h:208-211 | from any valid tables, a run in which the slot has gone to another key when it is read |
| CoinTxids.LaterReadCanBeWrong | multigateway/multifind.h:208-211 | such a run of the table with which the program starts |
| HashProtocol.NextKeeps | utils/jl777hash.h:319-413 | what every step of callers and server keeps |
| HashProtocol.PerformIsLookup | utils/jl777hash.h:397-400 | on valid tables a packet's answer is the finite map's answer under the key that the caller gave, or under "123456" when that key cannot be stored |
| HashProtocol.AddedIsFound | utils/jl777hash.h:397-400 | a search after an addition of the same key ends in the slot of the record that the addition returned |
| HashProtocol.SequentialServes | utils/jl777hash.h:382-413 | a sequential run from valid tables answers every request without failure |
| WordLaws.AddIsModular | nacl/ripemd160.h:54-58 | the addition that all steps use is the sum modulo 2^32 |
| WordLaws.RolTurns | nacl/ripemd160.h:44 | the rotation turns all 32 bits to the left: in a register of twice the size, what leaves one half comes in at the other end |
| WordLaws.RorTurns | libtom/sha256.c:60 | the same to the right |
| WordLaws.LoadPlacesBytes | nacl/ripemd160.h:36-41 | which byte of a loaded word is which |
| WordLaws.StoresAreLoaded | nacl/ripemdtest.h:74-79 | stored words are loaded back, in both byte orders |
| WordLaws.StoresDigits | libtom/sha256.c:274 | a stored length is written digit by digit to the base 256, in both byte orders |
| Words.XorStores | nacl/ripemd160.c:247-253 | exclusive-or into a byte of a word that is still zero stores the byte |
| Words.FoldPaddedFromTail | libtom/rmd160.c:358-405 | the padded message can be finished from the chaining value after its complete blocks and its tail |
| Words.PaddedBlocks | libtom/rmd160.c:370-395 | padding leaves one block or two, split at a tail of 55 bytes |
| Ripemd160Spec.TablesArePermutations | nacl/ripemd160.c:46-224 | the message-word orders of the ten rounds are powers of one permutation, as the designers define them |
| Ripemd160Spec.LoopByRounds | nacl/ripemd160.c:39-235 | the table-driven loop of the standard, by rounds |
| Ripemd160Rounds.FF | nacl/ripemd160.h:54-58 | the macro is one step of round 1 of the left line, up to renaming |
| Ripemd160Rounds.GGG | nacl/ripemd160.h:84-88 | the macro is one step of round 4 of the right line, up to renaming |
| Ripemd160Rounds.LeftRound1 | nacl/ripemd160.c:46-62 | sixteen register-renamed steps are round 1 of the left line |
| Ripemd160Rounds.LeftRound2 | nacl/ripemd160.c:64-80 | the same of round 2 |
| Ripemd160Rounds.LeftRound3 | nacl/ripemd160.c:82-98 | the same of round 3 |
| Ripemd160Rounds.LeftRound4 | nacl/ripemd160.c:100-116 | the same of round 4 |
| Ripemd160Rounds.LeftRound5 | nacl/ripemd160.c:118-134 | the same of round 5 |
| Ripemd160Rounds.RightRound1 | nacl/ripemd160.c:136-152 | sixteen register-renamed steps are round 1 of the right line |
| Ripemd160Rounds.RightRound2 | nacl/ripemd160.c:154-170 | the same of round 2 |
| Ripemd160Rounds.RightRound3 | nacl/ripemd160.c:172-188 | the same of round 3 |
| Ripemd160Rounds.RightRound4 | nacl/ripemd160.c:190-206 | the same of round 4 |
| Ripemd160Rounds.RightRound5 | nacl/ripemd160.c:208-224 | the same of round 5 |
| Ripemd160Rounds.BothLines | libtom/rmd160.c:124-302 | all 160 steps, which both libraries share line for line, are the two lines of the standard's loop |
| NaclRipemd160.MDcompress | nacl/ripemd160.c:39-235 | for every state and block the compressor, with its in-place final combine, is the standard's |
| NaclRipemd160.FillWords | nacl/ripemd160.c:244-253 | the bytes and the one bit that are exclusive-ored into words are the padded block |
| NaclRipemd160.StoreLength | nacl/ripemd160.c:262-263 | the two shifted halves are the length in bits modulo 2^64 |
| NaclRipemd160.MDfinish | nacl/ripemd160.c:239-267 | for every tail and every 64-bit length, finishing absorbs the standard's padding |
| NaclRipemd160.RMD | nacl/ripemdtest.h:45-82 | the whole-message driver gives the digest; its 32-bit length cuts longer messages |
| NaclRipemd160.RMDbinary | nacl/ripemdtest.h:86-140 | the driver of 1024-byte chunks gives the digest of the whole when only the last read is short |
| NaclRipemd160.ChunkAbsorbed | nacl/ripemdtest.h:113-128 | one more chunk after whole chunks leaves the tail where the finish looks for it |
| NaclRipemd160.Carry | nacl/ripemdtest.h:121-123 | the carry keeps the two words the length modulo 2^64 |
| LibtomRmd160.HashState.constructor | libtom/rmd160.c:330-341 | the initial context has absorbed nothing |
| LibtomRmd160.HashState.Compress | libtom/rmd160.c:106-313 | the compressor is the standard's |
| LibtomRmd160.HashState.PadAndCompress | libtom/rmd160.c:370-395 | padding byte by byte absorbs the standard's padding |
| LibtomRmd160.HashState.Done | libtom/rmd160.c:358-405 | from any context that has absorbed a message, the digest of that message; an error exactly when the buffer index is out of range |
| LibtomRmd160.AllDigests | libtom/rmd160.c:358-405 | libtom and both drivers of the other library give the same digest of a message: the chunked one whenever only the last read is short, the other below 2^32 bytes, beyond which it is the digest of a prefix |
| LibtomSha256.ShortFormsAgree | libtom/sha256.c:58-59 | the shortened Ch and Maj are those of section 4.1.2 of FIPS 180-4 |
| LibtomSha256.SigmasAgree | libtom/sha256.c:62-65 | the macros Sigma0, Sigma1, Gamma0 and Gamma1 are the functions of section 4.1.2 |
| LibtomSha256.Rnd | libtom/sha256.c:96-113 | the macro changes two registers as one round of section 6.2.2 does |
| LibtomSha256.FillSchedule | libtom/sha256.c:85-93 | the two loops fill in the message schedule |
| LibtomSha256.RolledRounds | libtom/sha256.c:96-107 | the rolled loop that shifts its registers is the 64 rounds of the standard |
| LibtomSha256.UnrolledRounds | libtom/sha256.c:108-182 | the unrolled rounds with rotated arguments are the same 64 rounds |
| LibtomSha256.Compress | libtom/sha256.c:68-189 | either form of the compressor is the standard's |
| LibtomSha256.HashState.constructor | libtom/sha256.c:206-221 | the initial context has absorbed nothing |
| LibtomSha256.HashState.PadAndCompress | libtom/sha256.c:250-275 | padding absorbs that of section 5.1.1 |
| LibtomSha256.HashState.Done | libtom/sha256.c:238-285 | from any context that has absorbed a message, the digest of that message; an error exactly when the buffer index is out of range |
| Crc32.Table | utils/jl777str.h:477-521 | each of the 256 constants is eight steps of the shift register |
| Crc32.EightShiftsIsLinear | utils/jl777str.h:523-534 | the eight-step map is linear |
| Crc32.LookupIsEightShifts | utils/jl777str.h:531 | one lookup does the work of eight shifts, for every register and byte |
| Crc32.Crc32 | utils/jl777str.h:523-534 | the loop computes the CRC of the bit-by-bit register |
| Crc32.CrcChains | NXTorrent.h:667-671 | the CRC of a concatenation is the chained CRC |
| Crc32.ListingCrc | NXTorrent.h:667-671 | a listing's three chained parts have the CRC of their concatenation |
| JsonRoundTrip.PrintThenParse | utils/cJSON.c:268-512 | parsing a printed tree, after any blanks, gives the tree and leaves no text, in both print modes, for trees of 32-bit integers and C strings |
| JsonRoundTrip.ParseBack | utils/cJSON.c:291-512 | the same of a tree within a text |
| JsonRoundTrip.UnescapeBack | utils/cJSON.c:159-253 | escaped strings, control characters included, come back |
| JsonRoundTrip.HexIsRead | utils/cJSON.c:145-156 | exactly the hexadecimal digits, of either case, are read by `parse_hex4`, each as its own value |
| JsonRoundTrip.EscapesAreUtf8 | utils/cJSON.c:184-206 | every escape of a Unicode scalar value, with digits of either case and surrogate pairs included, stands for its UTF-8 |
| JsonRoundTrip.Utf8Back | utils/cJSON.c:197-205 | that encoding has the lengths of RFC 3629, section 3, and can be read back |
| JsonRoundTrip.NumberBack | utils/cJSON.c:101-143 | printed integers are read back |
| JsonMinify.MinifyPrint | utils/cJSON.c:586-601 | minifying either print of a tree gives its unformatted print |
| JsonMinify.KeepsString | utils/cJSON.c:597 | string literals pass unchanged, whatever they hold |
| JsonStrings.PrintStringPtr | utils/cJSON.c:220-253 | the escaped text, in a buffer that it fills exactly |
| JsonStrings.ScanString | utils/cJSON.c:165 | the first loop's count, or that it leaves the text |
| JsonEscapes.EscapeFits | utils/cJSON.c:165-211 | an escape gives no more bytes than the first loop counted for it |
| JsonEscapes.WellEscapedFits | utils/cJSON.c:165-211 | text whose escapes stay inside the string stays inside itself and the buffer that was counted for it |
| JsonEscapes.OverrunExists | utils/cJSON.c:165-211 | a text on which the second loop writes more than the first one counted |
| JsonRoundTrip.PrintedFits | utils/cJSON.c:220-253 | what `print_string_ptr` writes is never such a text |
| JsonStrings.Transcode | utils/cJSON.c:197-205 | the fall-through switch writes the UTF-8 of the code, from its last byte to its first, exactly when it fits the buffer |
| JsonStrings.ReadEscape | utils/cJSON.c:176-209 | one escape, with its surrogate cases, and exactly when it leaves the text or the buffer |
| JsonStrings.ReadString | utils/cJSON.c:160-217 | for any text, the string's characters, and exactly when some access lies outside the text or the buffer |
| CJson.PrintNumber | utils/cJSON.c:123-143 | the digits of any 64-bit number fit the 22 bytes |
| CJson.ComposeArray | utils/cJSON.c:383-408 | the array's text, with every write inside the computed length |
| CJson.ComposeObject | utils/cJSON.c:483-512 | the object's text, with every write inside the computed length, tabs included |
| CJson.EmptyObject | utils/cJSON.c:455-464 | the empty object's text, in its own length |
| CJson.PrintValue | utils/cJSON.c:306-322 | the text of any printable tree, at any depth in both modes, within its buffers |
| CJson.PrintArrayText | utils/cJSON.c:353-408 | the loops over the children compute the length and compose the text |
| CJson.PrintObjectText | utils/cJSON.c:447-512 | the loops over the children compute the length and compose the text |
| CJson.SkipBlanks | utils/cJSON.c:266 | the loop skips all that is not above a space |
| CJson.ParseValue | utils/cJSON.c:291-304 | for any text, the parsed item, or the place of the error, or that a string in it is not read within bounds |
| CJson.ParseNumber | utils/cJSON.c:101-118 | the loops read the number, with its fraction and its exponent, and stop behind it |
| JsonNumbers.NumberMeans | utils/cJSON.c:101-118 | a number in any of JSON's forms is the number of all its digits, divided by ten for every digit of its fraction, and multiplied or divided by ten as often as its exponent says |
| JsonNumbers.AmountsAreExact | multigateway/bitcoin.h:207 | satoshis written as coins with eight decimals are read as satoshis / 10^8 |
| JsonBlanks.ParseSpaced | utils/cJSON.c:324-444 | whatever blanks stand before and after the tokens of a text, at any depth, parsing gives its tree and what follows |
| JsonBlanks.BlanksDoNotMatter | utils/cJSON.c:268-281 | the same of a whole text, with blanks before and after it, of which nothing is left |
| JsonBlanks.NumeralsRead | utils/cJSON.c:101-118 | a number in any of JSON's forms can be a leaf of such a text |
| CJson.ParseArray | utils/cJSON.c:324-350 | the loop reads the items between commas |
| CJson.ParseObject | utils/cJSON.c:411-444 | the loop reads the members between commas |
| CJson.MinifyInPlace | utils/cJSON.c:586-601 | the text is minified in place, the write position never passing the read position, and nothing beyond the terminator changes |
| NxtIdSpec.CalcExpand | utils/jl777str.h:69-84 | every 64-bit id survives its text, of at most 20 digits |
| NxtIdSpec.SelfCheckExact | utils/jl777str.h:143-144 | the built-in comparison finds no difference exactly for canonical text of a value below 2^64 |
| NxtId.ExpandNxt64bits | utils/jl777str.h:69-84 | both loops stay in their buffers and write the id's digits |
| NxtId.CmpNxt64bits | utils/jl777str.h:101-110 | there is a difference exactly when the text is not the id's |
| NxtId.CalcNxt64bits | utils/jl777str.h:112-146 | the value modulo 2^64 of any digit string under 22 characters, 0 otherwise; which message is printed, exactly |
| NxtIdSpec.SatoshisBack | utils/cJSON.c:691-719 | an amount is read back as it was written exactly when it is below 2^63 or is 12670116110564327424 |
| NxtId.GetSatoshis | utils/cJSON.c:691-708 | the loop weighs every character as a digit, modulo 2^64 |
| JsonCodecSpec.ExpandSubstitute | utils/jsoncodec.h:36-85 | for any 7-bit text and any dictionary, expanding what was substituted gives the text back |
| JsonCodecSpec.SurvivesExactly | utils/jsoncodec.h:36-85 | with a dictionary of 7-bit words, exactly the 7-bit texts survive |
| JsonCodecSpec.NothingSubstituted | utils/jsoncodec.h:35-54 | text without quotes is not substituted at all |
| JsonCodecSpec.DecodeEncode | utils/jsoncodec.h:105-138 | when encoding and decoding succeed, and that the result is the stripped text and fits its buffer |
| JsonCodecSpec.DecodedIsSameJson | utils/jsoncodec.h:90-103 | what is decoded compares equal to the original |
| JsonCodecSpec.StrippedIsSameJson | utils/jl777str.h:161-172 | text compares equal to its stripped form exactly when it is empty or not all stripped, as the empty string is cloned to something else |
| JsonCodecSpec.SameJsonExactly | utils/jsoncodec.h:90-103 | two texts compare equal exactly when they strip to the same, the empty text counting as "<nullstr>" |
| JsonCodec.CompareJsontext | utils/jsoncodec.h:90-103 | clones, strips and compares both texts |
| JsonCodec.StripStr | utils/jl777str.h:336-350 | the loop strips in place |
| JsonCodec.FindWord | utils/jsoncodec.h:40-47 | the first word that matches, up to a word of no length |
| JsonCodec.SubstituteWords | utils/jsoncodec.h:36-55 | the loop writes the substituted text into a buffer of the text's length |
| JsonCodec.ExpandWords | utils/jsoncodec.h:71-85 | the loop writes the expanded text |
| LedgerRuns.HoldsNet | NXTprotocol.c:363-472 | after any transactions, what an account holds of an asset is, modulo 2^64, the sum over those that were new of what it received and what was issued to it, less what it sent and, for the genesis account, less all issues; bids, asks, other kinds, and transactions without an asset or a party count nothing |
| LedgerRuns.RunIsSound | NXTprotocol.c:363-472 | after any transactions no account lists an asset twice, every quantity is the signed sum over its own list, and each asset sums to 0 modulo 2^64 over all accounts, genesis included |
| LedgerRuns.RepeatsAreIgnored | NXTprotocol.c:384-399 | any transaction list gives the same state as its first occurrences alone |
| LedgerRuns.SameHashIsIgnored | NXTprotocol.c:384-399 | a transaction with the hash of an earlier one changes nothing |
| LedgerRuns.TransferConserves | NXTprotocol.c:334-361 | a transfer keeps every asset's total modulo 2^64 |
| LedgerRuns.TransferExplained | NXTprotocol.c:334-361 | a transfer, to oneself included, keeps quantities equal to the signed sums of their lists |
| LedgerRuns.TransferShaped | NXTprotocol.c:10-34 | a transfer keeps accounts and their assets distinct |
| LedgerSpec.TransferredHolds | NXTprotocol.c:334-361 | what every account holds and lists after a transfer |
| Ledger.NxtAcct.GetAssetInAcct | NXTprotocol.c:10-34 | the scan returns the asset's place, and adds one when asked |
| Ledger.NxtAcct.Change | NXTprotocol.c:105-116 | a quantity changes modulo 2^64 and its list gets the transaction |
| Ledger.NxtLedger.TransferAssetBalance | NXTprotocol.c:334-361 | both sides are opened, then changed, also when they are one account |
| Ledger.NxtTables.ProcessTransaction | NXTprotocol.c:384-459 | the whole new state of the tables and the ledger: a known hash is ignored, both parties get accounts, and a new asset transaction moves what its subtype says |
| FundsSpec.TotalsAreSums | multigateway/balances.h:13-45 | after any bookings and openings of accounts, in any order, every field of a known coin's total is the sum of that field over all accounts |
| FundsSpec.HeldAfter | multigateway/balances.h:34-41 | a change is seen in one account and coin only |
| GatewayFunds.GatewayBooks.EnsureCoinAcct | multigateway/multifind.h:152-168 | the scan returns the coin's place, and adds an empty one when there is none |
| GatewayFunds.GatewayBooks.UpdateBalanceInfo | multigateway/balances.h:21-41 | the coin's total and the account change alike, derived fields included |
| GatewayFunds.GatewayBooks.Change | multigateway/balances.h:13-32 | one of the four sums grows, and the fields derived from them agree |
| GatewayFunds.GatewayBooks.BalanceVerification | multigateway/balances.h:47-80 | positive exactly when the coin is known and, after the value, neither the coin's total nor the account has transferred more than its deposits, or sent more than its withdrawals and more at once than its balance; looking changes no balance |
| FundsMeaning.TotalsAreBooked | multigateway/balances.h:13-45 | after any calls each of a coin's four sums is the sum of the values booked of its kind, and the other fields their differences |
| FundsMeaning.AccountsAreBooked | multigateway/balances.h:34-45 | the same of every account, of the values booked on it |
| FundsMeaning.OnlyKnownCoins | multigateway/multifind.h:170-181 | over any calls no account holds a coin without a name |
| FundsMeaning.VerifiedExactly | multigateway/balances.h:47-80 | after any calls, what is allowed is exactly what overdraws neither the coin nor the account |
| FundsSpec.ConvCoinstr | multigateway/multifind.h:48-122 | the number of a known coin is found by its name; the name of any other number is taken for number 0 |
| DepositRuns.EachCreditedOnce | multigateway/multideposit.h:33-164 | in every run, deposits are the values over a duplicate-free list of records and transfers the values over the records credited at either site, none twice |
| DepositRuns.UpdateKeepsOnce | multigateway/multideposit.h:78-122 | an update keeps this exactly when the record keeps its value or is on neither list |
| DepositRuns.CreditedAsConfirmed | multigateway/bitcoin.h:191-224 | in every run in which no record is updated again, which `process_vouts` excludes, the confirmed deposits of an output are as many as the times it was processed with confirmations and a binding: it is credited at most once exactly when that happened at most once |
| DepositRuns.FirstAnnouncementStays | multigateway/multideposit.h:200-206 | over any run the first announcement of a coin transaction is the one that is kept, and without one there is none |
| DepositRuns.AnnouncesItsOwn | multigateway/multideposit.h:43-47 | over any run in which no announcement of it is heard, a gateway announces exactly the confirmed deposits of its own accounts |
| DepositRuns.CountsAsConfirmed | multigateway/multideposit.h:109-274 | of all that can happen to a record, what makes its transfer count as confirmed, exactly |
| SweepSpec.ConfirmedPasses | multigateway/multigateway.h:112-161 | for any heights, and blocks delivered or not, how often each height is passed over with confirmations: once by the history sweep below the height at which the live sweep began, and once by the live sweep from `min_confirms` before it |
| SweepSpec.OverlapIsTwice | multigateway/bitcoin.h:283-335 | of the heights that both sweeps have left behind, exactly the `min_confirms` before the live sweep are passed over with confirmations twice, the others once; with `min_confirms` 0 every height of the live sweep is |
| SweepSpec.OverlapExists | multigateway/multigateway.h:112-161 | the least run in which a height is confirmed twice |
| Sweeps.GatewayInfo.AddUniqueTxids | multigateway/bitcoin.h:322-380 | the loop processes the one block or the two, as far as they are delivered, and says if all were |
| Sweeps.GatewayInfo.Coinloop | multigateway/multigateway.h:112-161 | one turn: the passes made and the whole new state |
| CreditedHeights.CreditedTwiceInOverlap | multigateway/multigateway.h:112-161 | whatever else the node does, a bound deposit is credited as often as its height is confirmed: twice at exactly the heights of the overlap, once at the others |
| Deposits.Coin.AddConfirmedDeposit | multigateway/multideposit.h:33-51 | the record is listed, credited, and announced by the account's own gateway |
| Deposits.Coin.UpdateCrosschainInfo | multigateway/multideposit.h:78-122 | the whole new state of the record, the list and the books |
| Deposits.Coin.ConfirmDeposit | multigateway/multideposit.h:104-120 | the deposit is credited, and its transfer too when it was paid for before |
| Deposits.Coin.SetPendingAssetxfer | multigateway/multideposit.h:124-164 | the whole new state of record, transaction and books, and the return code |
| Deposits.Coin.AuthorizeAssetTransfer | multigateway/multideposit.h:227-278 | when a transfer is issued, in either build, and the whole new state |
| Deposits.Coin.AssetEvent | multigateway/multigateway.h:547-564 | the transaction is marked, and the record linked once |
| GatewayProtocol.AtMostOneTransfer | multigateway/multideposit.h:227-278 | in every run of three gateways in which each replay ends only after all that its gateway paid for was processed again, each coin transaction and account is paid for at most once, by the account's gateway only |
| GatewayProtocol.SafeExactlyWhenReady | NXTprotocol.c:554-622 | however much of the chain was replayed, lost, or seen by the other thread: ending the replay cannot lead to a second payment exactly when every transaction paid for was named in what was processed since the start |
| GatewayProtocol.EarlyEndForgets | NXTprotocol.c:574-575 | a replay that ends before its first block makes every earlier payment unsafe |
| GatewayProtocol.CompleteRunsPayOnce | NXTprotocol.c:534-622 | with settled restarts, and all blocks and transactions delivered, each coin transaction and account is paid for at most once |
| GatewayProtocol.CompleteIsReady | NXTprotocol.c:534-622 | in such a run no replay ends too early |
| GatewayProtocol.PayableExactly | multigateway/multideposit.h:243-261 | at any moment, an output that a gateway owes can be paid for before its next restart exactly when its transaction is not marked |
| GatewayProtocol.NeverPays | multigateway/multideposit.h:246 | in every run without a restart of the gateway, a marked transaction is not paid for again |
| GatewayProtocol.SecondOutputIsNeverPaid | multigateway/multideposit.h:243-261 | of several outputs of one coin transaction that the same gateway owes, to one account or to many, only one is ever paid |
| GatewayProtocol.OneOfTwoOutputs | multigateway/multideposit.h:243-261 | a run in which a gateway pays for one of two outputs and never for the other, which stays on its list |
| GatewayProtocol.ForeignTransferMarks | multigateway/multigateway.h:537-550 | a run in which the transfer of somebody else sets the mark, so that the gateway, which has paid nothing, never pays for the transaction |
| GatewayProtocol.SafeExactlyWhenSettled | NXTprotocol.c:534-622 | a restart that is followed by complete replays cannot lead to a second payment exactly when all that the gateway paid for is named in the blocks it will replay |
| GatewayProtocol.SafeWithoutHistory | libwebsockets/libwebsocketsglue.h:158-174 | without history mode a restart is safe exactly before the gateway's first payment |
| GatewayProtocol.LastBlockIsNotReplayed | NXTprotocol.c:554 | after a payment named only in the last block a restart can lead to a second one, though the replay is complete |
| GatewayProtocol.SafeWhenStopBlockIsLive | NXTprotocol.c:548-561 | it cannot when the other thread has processed that block before the replay ends |
| GatewayProtocol.PaysAgain | multigateway/multigateway.h:69-73 | a gateway that has forgotten a payment makes it again, after a complete replay |
| GatewayProtocol.NextKeeps | multigateway/multigateway.h:62-171 | what every step keeps: a replaying node has exactly the marks it has heard of, and one that has ended its replay has marked all that it ever paid for |
| GatewayProtocol.SeenMarks | multigateway/multigateway.h:547-551 | a replayed block marks exactly the transactions that its delivered transactions name |
| GatewayProtocol.StepKeepsMarks | multigateway/multideposit.h:78-278 | a mark, once set, is never cleared |
| GatewayProtocol.StepMarksIssued | multigateway/multideposit.h:243-261 | a payment is issued only for an unmarked transaction and the gateway's own account, and marks it |
| Redeems.EnqueuedOnce | multigateway/multigateway.h:596-607 | over any run each redeem transaction is enqueued once, as it was first seen |

## Left out

- Sizes: hash sizes, counts, indices and satoshi amounts do not overflow, except where a row says modulo 2^64; allocation never fails.
- The load test `hashsize * .666` is done in thousandths; rounding of the product is not modelled.
- HashTables.AddHashtable: keys of no or too great length are replaced by "123456"; a `keysize` of 6 or less, for which that key is too long itself, is not excluded and not treated apart.
- HashProtocol.Linearizable: nothing is said about calls that never return; a lost packet leaves its caller waiting. The two queues are bags, so the alternation of the server between them is not used.
- CoinTxids.FindCoinTxid: the read of the slot is one step between two steps of the server; a table that is freed by a resize in the middle of the read is not modelled.
- After `Historical_done`, threads call the table functions directly and unprotected; only the time before is modelled.
- The mutex of a queue makes each of its operations one step; `PingPong` takes first-in first-out queues as given, which the ring guarantees only as `EnqueueIsFifo` says.
- PingPong.Conserves: what is added to the second half, or taken out of either half, by anybody else during a pass is not modelled; the program does neither. Neither target is the scheduler's own second half.
- HASH_PROCESS is not part of this model; `Done` starts from a context that has absorbed a message, which says what that macro leaves behind.
- LibtomRmd160.HashState.Done: clearing the stack and the context afterwards is not modelled; neither is it of SHA-256.
- NaclRipemd160.RMDbinary: says nothing when a read before the last is short; data is then lost, and no digest is promised.
- The register array `S` and the block words are arrays; the round macros of both RIPEMD-160 files are methods over register values, as the macros only assign registers.
- cJSON's linked nodes are finite trees with sequences of children; references, `prev` links and deletion are not modelled, nor are names that differ in case only.
- JsonRoundTrip.PrintThenParse: numbers that are no 32-bit integers are printed through floating-point formats, which are not modelled; parsing treats all numbers exactly.
- What the program does after it has left a text or a buffer is not modelled; `Undefined` is the result of the call.
- CJson.MinifyInPlace: requires that comments and strings are closed; otherwise the program reads past the terminator.
- Bit operations of the UTF-8 encoder are written as sums, and `printf` formats as the digit functions they stand for.
- JsonCodecSpec.DecodeEncode: zlib is any pair of functions that obeys its contract; of text that is not 7-bit nothing is promised, as its expansion may not fit the buffer.
- NxtIdSpec.SatoshisBack: the text of the field is taken as it was put in; that JSON does not change digits is `UnescapeBack`.
- LedgerRuns.RunIsSound: asset ids are canonical decimal text, account addresses are compared as text, and bids and asks move nothing, as in the program.
- `get_NXTacct`, `issue_transferAsset`, the bitcoin daemon and the NXT server are not part of this model: the first finds or adds an account, the others' answers are parameters. `numinitlist` is never set, so the loop over `initlist` has no turn.
- CreditedHeights.CreditedTwiceInOverlap: a block that is delivered shows all its outputs; a block text that does not parse (bitcoin.h:349-367), and single transactions that the daemon does not deliver, are not modelled.
- SweepSpec.ConfirmedPasses: counts passes over delivered blocks; a block whose text does not parse is passed over like any other, without its outputs being seen.
- SweepSpec.OverlapIsTwice: the same.
- Sweeps.GatewayInfo.AddUniqueTxids: the same.
- GatewayProtocol.AtMostOneTransfer: a transfer that is issued has an id other than 0 and reaches a block sooner or later or never; its comment names the coin transaction. Forks of the NXT chain are not modelled.
- GatewayProtocol.SafeExactlyWhenSettled: the last block at the moment of a restart is the one at which the history thread will stop, and the NXT server delivers all that this thread asks for (`SafeExactlyWhenReady` does without that); blocks that the other thread processes may come at any time and in any order, or not at all.
- DepositRuns.EachCreditedOnce: requires of an update of an old record that it keeps the value, which is the exact condition and which `process_vouts` meets by making new records; one coin on a node with its daemon, so the credits of nodes without one (multideposit.h:202-203, multigateway.h:562-563) are not modelled.
- `transfer_assets` is one authorization after another, in any order; unspent outputs, `smallest_msig`, withdrawals and their consensus are left out, as are the contents of confirmation messages.
- Address bindings (`search_multisig_addrs`, `add_multisig_addr`) are a parameter of each update: the account found, or none.
- Sockets, threads, curl, web pages, the hole-punch server, NXTorrent's listing status and ratings, and group lists.
