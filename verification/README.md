# Verified models of a collection of C programs

Dafny models of the parts of this repository that keep hard invariants, with
proofs of what they are for.  `dafny verify dfyconfig.toml` checks everything.

**Hash-indexed record database** (`Db*.dfy`, from `apue/db/db.c`).  The index
file is a string of bytes: a free-list pointer, 137 chain pointers, and records
of right-justified decimal fields.  `DbFormat` and `DbLayout` relate bytes to
records and pointers, `DbWorld` says which chain, free list or process each
record belongs to, and `DbMoves` shows for each kind of write what it does to
that picture and which lock allows it.  `DbProtocol` is the concurrent library:
each process is at one program point of `db_fetch`, `db_store` or `db_delete`,
and a step is one lock, unlock, read or write.  `DbInvariant`, `DbSerial`,
`DbSteps` and `DbWrites` prove that every step keeps the invariant, and
`DbTheorems` draws the conclusions for all runs.  `DbStore` is the same library
as a class with the fields of the `DB` structure, proved against a plain map.
`DbSpec.Apply` is that map.

**Packed hash and wildcard hash** (`NgxHash`, `NgxWildcard`, `NgxNames`,
`NgxDns`, `NgxTail`, `NgxAdjacent`, `NgxPacked`, from `ngx_hash.c` and
`ngx_string.c`).  `NgxHash` lays elements out in byte-addressed memory and
walks them.  Its 16-bit counters can wrap around: `LimitExact` gives the bucket
sizes for which the size search is right.  The others take wildcard names from
`ngx_hash_add_key` through sorting and the recursive construction of nested
hashes to lookup, and `NgxPacked` puts both together; the two tag bits of a
value are a datatype.  Lookup returns the longest match exactly when sorting
brings patterns with the same first labels together, which fails for keys with
characters that sort below the dot (`NgxAdjacent`).  A ".x" that is refused
because of another wildcard leaves x among the exact names, as in the code.

**Output chain** (`NgxChain`, `NgxOutput`, from `ngx_output_chain.c` and
`ngx_buf.c`).  Buffers live in an explicit memory, chains are sequences of
references.  The filter is any consumer that takes bytes in order, as many as
it likes, whenever it likes.  `Holds` and `Inv` say that chains are disjoint
where they must be, that a free buffer is empty and in nobody's hands, and that
temporary buffers are counted.

**Open-file cache** (`NgxFileCache`, `NgxFileCacheOps`, from
`ngx_open_file_cache.c`).  `Valid` says: tree, expire queue and `current`
describe the same entries and `current` is at most `max`; the queue is ordered
by access time; an entry's `count` is the number of its outstanding cleanups,
zero for errors and directories; every open descriptor belongs to exactly one
entry, attached or detached, and none was closed twice.  One look at the file
system is one atomic view.  The property fails for one family of inputs: when a
retest sees the inode number of a cached open file on a directory, the code
keeps the descriptor in a directory entry.  `Open` states that this is the only
way, as an equivalence, and `ReusedRun` is such a run.

**Pool and array** (`NgxPool`, `NgxArray`, from `ngx_palloc.c` and
`ngx_array.c`).  The invariant says that live regions are pairwise disjoint and
clear of block headers, that every large allocation hangs on exactly one live
header, and that failure counts fall along the chain from `current`, with at
least six failures for every block before it.

**Semaphore wrapper** (`Semaphore`, from `apue/lib/semaph.c`).  A state machine
of any number of processes, each at one system call of `sem_create`, `sem_open`
or `sem_close`, with exit and its undo step possible everywhere.  `sem_close`
can remove a set that `sem_open` has just opened: `OpenRace` is such a run, and
`RemovedFrom` and `RemovedUnused` say exactly when a removed set is in use.
The process counter starts at 10000, and with that many openers it reads as if
the set were new: `ReadExactly` says that this is the only way the invariant
fails, and `RunsOut` is such a run.

**MD5, CRC-32, addresses as text, configuration tokens** (`NgxMd5`, `NgxCrc32`,
`NgxInet`, `NgxInet6`, `NgxInetText`, `NgxConf`).  Streaming and table-driven forms equal
simple definitions, and parsers undo printers.  `ngx_inet_addr` accepts empty
fields and fields that wrap to less than 256 modulo 2^64; `InetAddr` states
exactly what it accepts.  `ngx_inet6_addr` lets one stray colon through in front
of a group and one behind the last; `Inet6Exactly` says which texts it accepts.
`ngx_inet_addr` also returns the failure value for
255.255.255.255, so IPv6 addresses printed with that tail do not parse back:
`ShowParses` gives the exact family.

**2048** (`Tiles`, `Board`, `Scoring`, `Game`, from `2048.c/2048.c`).  The board
size is a parameter.  The in-place slide, rotation and end test are proved
against compact-and-merge-once along a direction.  Restarting clears the board
but not the score, so that the score tells what the tiles are worth exactly if
it was zero then; `StaleScore` plays a game in which it was not.

`Options`, `Collections`, `Decimals` and `WordSizes` hold what several of these
share.

## Model

| member | source | states |
|---|---|---|
| DbTheorems.Serializable | apue/db/db.c:259-807 | in every reachable state of any number of processes, stepping one file access or lock call at a time, the results of all finished calls are those of running them one after the other on a plain map, in the order in which they released their chain locks |
| DbTheorems.NoDeadlock | apue/db/db.c:259-807 | in every reachable state with an unfinished call some process can take a step: a chain lock comes first, then at most one inner lock |
| DbTheorems.FinalMap | apue/db/db.c:233-301 | when every process is idle, walking the chain through the bytes of the two files finds for each key exactly what the serial order of all calls leaves in the map |
| DbTheorems.NeverCorrupt | apue/db/db.c:343-435 | no process ever fails a sanity check of the readers, and the index file always splits into whole readable records, also in the middle of other calls |
| DbTheorems.FullOnlyAtLimit | apue/db/db.c:567-633 | a step gives up with a limit error if and only if the record being appended has an unprintable length or starts beyond the largest pointer |
| DbTheorems.StepInv | apue/db/db.c:259-807 | every step of every process keeps the global invariant: layout, disjoint chains, free list, lock table, locals of all processes and serial log |
| DbTheorems.InitInv | apue/db/db.c:146-160 | the freshly written index file satisfies the global invariant with the empty map |
| DbTheorems.RunInv | apue/db/db.c:259-807 | the global invariant holds at the end of every finite run |
| DbMoves.MoveOverwrite | apue/db/db.c:734-740 | replacing data of equal length in place changes one key of the map and nothing that another lock holder may read |
| DbMoves.MoveUnlink | apue/db/db.c:486-489 | blanking the data of a record takes its key out of the map, keeps the file structure, and is permitted to the holder of that chain lock alone |
| DbMoves.MovePushFree | apue/db/db.c:511-514 | writing a blanked record as the new head keeps the free list acyclic and disjoint from all chains |
| DbMoves.MovePopFree | apue/db/db.c:754-807 | unlinking a record from anywhere in the free list keeps the list and hands the record to one process |
| DbMoves.MoveLink | apue/db/db.c:685-699 | writing a held record as chain head adds it to exactly that chain |
| DbMoves.MoveAppendRec | apue/db/db.c:567-614 | an appended index record starts at the end of file, belongs to one process, and disturbs nobody |
| DbMoves.MoveAppendData | apue/db/db.c:531-560 | appended data is a segment of its own that no record overlaps |
| DbLayout.WriteRecLaid | apue/db/db.c:567-614 | rewriting an index record by one of the same byte length keeps the division of the file into whole records |
| DbLayout.WritePtrLaid | apue/db/db.c:620-633 | rewriting a pointer field keeps every record and every other pointer |
| DbLayout.AppendRecLaid | apue/db/db.c:567-614 | appending a record extends the division of the file by that record |
| DbLayout.ReadRecAt | apue/db/db.c:343-418 | parsing the bytes at a record gives back its pointer, length, key, data offset and data length |
| DbLayout.LinksRemove | apue/db/db.c:516-522 | writing the removed record's pointer into its predecessor leaves the linked list without that record |
| DbFormat.AtolOfPad | apue/db/db.c:323-334 | reading a right-justified decimal field gives back the number that was printed, for every number and width |
| DbFormat.ParseBodyRoundTrip | apue/db/db.c:392-417 | splitting a printed record body at its two separators gives back key, data offset and data length |
| DbFormat.SameLengthKey | apue/db/db.c:463-525 | a key replaced by one of the same length leaves the record size unchanged |
| DbStore.Db.constructor | apue/db/db.c:146-160 | new files represent the empty map, positioned at the first record |
| DbStore.Db.ReadPtr | apue/db/db.c:323-334 | the pointer field decoded from the file bytes is the pointer of the logical structure |
| DbStore.Db.ReadIdx | apue/db/db.c:343-418 | a record read at an offset, or at the current position, is the logical record there; end of file is reported exactly at the end |
| DbStore.Db.ReadDat | apue/db/db.c:424-435 | the data read is the record's contents |
| DbStore.Db.WritePtr | apue/db/db.c:620-633 | succeeds exactly for offsets up to the limit and then changes the six bytes of that field |
| DbStore.Db.WriteIdx | apue/db/db.c:567-614 | succeeds exactly for printable records and then writes the record in place or at the end |
| DbStore.Db.WriteDat | apue/db/db.c:531-560 | writes the data and a newline in place or at the end and records offset and length |
| DbStore.Db.FindAndLock | apue/db/db.c:259-301 | finds a key if and only if it is in the map, with its record, its predecessor pointer and its data |
| DbStore.Db.Fetch | apue/db/db.c:233-253 | returns what a plain map returns and changes no file |
| DbStore.Db.Delete | apue/db/db.c:440-456 | refines deletion from a plain map, return code included |
| DbStore.Db.DoDelete | apue/db/db.c:463-525 | takes exactly the located key out of the map; both files keep their lengths |
| DbStore.Db.FindFree | apue/db/db.c:754-807 | finds a record if and only if some free record has the same key and data lengths, and unlinks exactly the first such one |
| DbStore.Db.AppendNew | apue/db/db.c:678-690 | adds the key to the map unless a limit is exceeded, and fails exactly then |
| DbStore.Db.Store | apue/db/db.c:639-748 | refines the three store flags on a plain map, return codes included; the process ends exactly when the data length is illegal or an append is needed that exceeds a limit |
| DbStore.Db.StoreOver | apue/db/db.c:702-740 | replaces the data of a present key, in place or by delete and append |
| DbStore.Db.StoreNew | apue/db/db.c:671-701 | adds an absent key, in a reused record or at the end |
| DbStore.Db.Rewind | apue/db/db.c:814-829 | the next record read is the first |
| DbStore.Db.NextRec | apue/db/db.c:837-877 | returns the next record whose key is not blank, having skipped only blank ones, or nothing when none is left |
| DbStore.Db.Scan | apue/db/db.c:814-877 | rewind followed by nextrec until NULL returns every non-blank key of the map once, with its data, and nothing else |
| DbStore.DeleteAll | apue/db/db.c:463-525 | the four writes of a deletion together take soundness of the files for the map to soundness for the map without the key |
| DbStore.AppendAll | apue/db/db.c:678-690 | the three writes of an append together take soundness for the map to soundness for the map with the new key |
| DbStore.ReuseAll | apue/db/db.c:691-701 | the three writes of a reuse together do the same in a recycled record |
| DbStore.ScanComplete | apue/db/db.c:837-877 | the non-blank records in file order are exactly the non-blank keys of the map, each once |
| NgxWildcard.FindBest | nginx-1.7.2/src/core/ngx_hash.c:52-143 | on labels: lookup in the nested hash returns the value of the longest matching wildcard and nothing exactly when none matches |
| NgxNames.FindHeadLabels | nginx-1.7.2/src/core/ngx_hash.c:52-143 | the search through a string from its end is the search through its labels |
| NgxNames.KeyMatches | nginx-1.7.2/src/core/ngx_hash.c:52-143 | a key's labels match a name's labels exactly when the name ends in ".x", or is x itself for a dot wildcard |
| NgxNames.HeadLookup | nginx-1.7.2/src/core/ngx_hash.c:52-143 | for every conflict-free set of names "*.x" and ".x", in any admissible order, lookup by string returns the value of the longest one that matches; "*.x" does not match x, ".x" does |
| NgxNames.Collect | nginx-1.7.2/src/core/ngx_hash.c:511-562 | the inner loop finds the whole group of keys with one first label and strips that label |
| NgxNames.WildcardInit | nginx-1.7.2/src/core/ngx_hash.c:455-597 | the recursive, loop-based construction builds exactly the nested hash of the specification, also where keys with the same first label are not adjacent |
| NgxNames.Convert | nginx-1.7.2/src/core/ngx_hash.c:869-901 | reversing the labels in the buffer turns ".x" and "*.x" into the key whose labels are those of x from the right |
| NgxNames.ScanKey | nginx-1.7.2/src/core/ngx_hash.c:723-736 | a key is refused exactly when it has two stars or two adjacent dots, the character behind the key included |
| NgxNames.KeyArrays.constructor | nginx-1.7.2/src/core/ngx_hash.c:648-700 | no names and no patterns |
| NgxNames.KeyArrays.AddKey | nginx-1.7.2/src/core/ngx_hash.c:703-975 | for every key and both flags: the key is classified, lower-cased, refused as busy exactly on a conflict, and otherwise added to the one list it belongs to |
| NgxNames.KeyArrays.AddHead | nginx-1.7.2/src/core/ngx_hash.c:818-975 | a head wildcard is added exactly when it conflicts with no other, and the stored key is its converted form |
| NgxDns.SortedIsGraded | nginx-1.7.2/src/core/ngx_string.c:826-854 | for all zero-terminated keys in lower case, sorting puts every pattern before its extensions |
| NgxDns.CleanAdjacent | nginx-1.7.2/src/core/ngx_string.c:826-854 | keys without blanks and control characters that share leading labels are adjacent after sorting |
| NgxDns.SortedIsOrdered | nginx-1.7.2/src/core/ngx_string.c:826-854 | without blanks and control characters, sorting by ngx_dns_strcmp puts keys that share leading labels next to each other and a name before its extensions |
| NgxDns.SortedLookup | nginx-1.7.2/src/core/ngx_string.c:826-854 | wildcards added in any order, converted, sorted and built: lookup returns the longest match, provided that keys with the same first labels came together |
| NgxTail.TailLookup | nginx-1.7.2/src/core/ngx_hash.c:146-208 | for every set of different names "x.*", sorted and built with the same first labels together, lookup from the first label on returns the value of the longest one that matches, and nothing exactly when none does |
| NgxTail.TailIsHead | nginx-1.7.2/src/core/ngx_hash.c:146-208 | on labels, tail lookup is head lookup of all labels but the last |
| NgxTail.FindTailLabels | nginx-1.7.2/src/core/ngx_hash.c:146-208 | the search through a string from its start is the search through its labels |
| NgxTail.TailLabels | nginx-1.7.2/src/core/ngx_hash.c:146-208 | a name goes on behind x with a dot exactly when the labels of x are leading labels of the name, but not all of them |
| NgxTail.SortedTails | nginx-1.7.2/src/core/ngx_string.c:826-854 | sorting by ngx_dns_strcmp puts every tail name before its extensions |
| NgxTail.TailKind | nginx-1.7.2/src/core/ngx_hash.c:750-756 | a key accepted as a tail wildcard leaves a name that is not empty and does not end in a dot |
| NgxAdjacent.HeadExactly | nginx-1.7.2/src/core/ngx_hash.c:52-143 | for wildcards of different values, sorted and built: head lookup is right about every name if and only if patterns with the same first labels came together in the sorting |
| NgxAdjacent.TailExactly | nginx-1.7.2/src/core/ngx_hash.c:146-208 | the same for tail lookup |
| NgxAdjacent.FindExactly | nginx-1.7.2/src/core/ngx_hash.c:52-143 | on labels: lookup is right about every name if and only if patterns with the same first labels are adjacent |
| NgxAdjacent.Hidden | nginx-1.7.2/src/core/ngx_hash.c:455-597 | a key cut off from one with the same first labels is not found by its own name |
| NgxAdjacent.ControlCharacter | nginx-1.7.2/src/core/ngx_string.c:847-852 | an input on which they do not come together: a tab sorts below the dot |
| NgxPacked.HeadInTables | nginx-1.7.2/src/core/ngx_hash.c:52-143 | the walk through the packed tables of all levels returns the longest matching wildcard, and nothing exactly when none matches |
| NgxPacked.TailInTables | nginx-1.7.2/src/core/ngx_hash.c:146-208 | the same for wildcards with the star at the end |
| NgxPacked.PackedHead | nginx-1.7.2/src/core/ngx_hash.c:52-143 | the search that hashes each label and walks buckets in memory is the search of the nested hash, for every name |
| NgxPacked.PackedTail | nginx-1.7.2/src/core/ngx_hash.c:146-208 | so is the search from the first label on |
| NgxPacked.FindLabel | nginx-1.7.2/src/core/ngx_hash.c:12-49 | at one level, the bucket walk finds exactly the entry of the label, whatever the table size |
| NgxPacked.Pack | nginx-1.7.2/src/core/ngx_hash.c:589-594 | the tables of all levels can be made exactly when at each level some size fits, and then hold the nested hash |
| NgxPacked.BuildTables | nginx-1.7.2/src/core/ngx_hash.c:455-597 | construction and tables together |
| NgxHash.NextElement | nginx-1.7.2/src/core/ngx_hash.c:43-44 | the alignment step of the walk leads from an element exactly to the next |
| NgxHash.TrySize | nginx-1.7.2/src/core/ngx_hash.c:285-313 | for every input: a size is accepted exactly when no 16-bit counter ever exceeds the bucket size cut to 16 bits |
| NgxHash.FindSize | nginx-1.7.2/src/core/ngx_hash.c:278-313 | where no counter can wrap around, the size found is the least from the starting size on whose buckets all fit; none exists when none is found |
| NgxHash.PassesExactly | nginx-1.7.2/src/core/ngx_hash.c:285-313 | where no counter can wrap around, a size passes exactly when every bucket fits |
| NgxHash.WrapAround | nginx-1.7.2/src/core/ngx_hash.c:294-305 | any two keys of one bucket that are together too large for a counter pass although they do not fit |
| NgxHash.LimitExact | nginx-1.7.2/src/core/ngx_hash.c:285-313 | the bucket sizes for which the search is right about every list of keys that each fit into a bucket are exactly those below 2^15 |
| NgxHash.SmallNarrow | nginx-1.7.2/src/core/ngx_hash.c:285-347 | bucket sizes below 2^15 keep all counters and room within 16 bits |
| NgxHash.InsideBucket | nginx-1.7.2/src/core/ngx_hash.c:322-414 | every element lies inside its own bucket before the terminator |
| NgxHash.ElementsApart | nginx-1.7.2/src/core/ngx_hash.c:322-414 | no two elements overlap |
| NgxHash.TerminatorApart | nginx-1.7.2/src/core/ngx_hash.c:406-414 | no element overlaps the terminator of any bucket |
| NgxHash.Place | nginx-1.7.2/src/core/ngx_hash.c:322-384 | the laid out and filled table holds every key at its address and a null value at each bucket's end |
| NgxHash.Fill | nginx-1.7.2/src/core/ngx_hash.c:386-404 | every key is stored, lower-cased, and later writes destroy none |
| NgxHash.Terminate | nginx-1.7.2/src/core/ngx_hash.c:406-414 | each used bucket ends in a null value and no element is damaged |
| NgxHash.HashInit | nginx-1.7.2/src/core/ngx_hash.c:251-452 | fails for small buckets exactly when some element needs more room; otherwise, where 16 bits suffice, builds the table of the least fitting size |
| NgxHash.Find | nginx-1.7.2/src/core/ngx_hash.c:12-49 | the walk over raw memory returns exactly what a linear search of the bucket's keys returns |
| NgxHash.SameName | nginx-1.7.2/src/core/ngx_hash.c:29-39 | the comparison loop decides equality of names |
| NgxHash.FirstByName | nginx-1.7.2/src/core/ngx_hash.c:12-49 | when hashes are computed from the lower-cased names, lookup finds the first key of that name in the whole list, for every table size |
| NgxOutput.Output.Run | nginx-1.7.2/src/core/ngx_output_chain.c:41-216 | over any sequence of calls and any behaviour of the filter, bytes consumed, then bytes held by the filter, then bytes still waiting are the concatenated input in order, unless an error was returned |
| NgxOutput.Output.OutputChain | nginx-1.7.2/src/core/ngx_output_chain.c:41-216 | one call extends that stream by exactly the new input and terminates; NGX_OK means that nothing is left waiting, and input is left only when all buffers are made and none is free |
| NgxOutput.Output.ShortPath | nginx-1.7.2/src/core/ngx_output_chain.c:48-68 | handing over a single buffer as it is, or nothing, keeps order and contents |
| NgxOutput.Output.Fill | nginx-1.7.2/src/core/ngx_output_chain.c:90-195 | the inner loop moves or copies input to the output without changing the stream, and stops with nothing done only when no buffer can be had |
| NgxOutput.Output.Turn | nginx-1.7.2/src/core/ngx_output_chain.c:97-194 | each round either makes progress or stops because no buffer is available |
| NgxOutput.Output.GetBuf | nginx-1.7.2/src/core/ngx_output_chain.c:382-455 | a new temporary buffer is empty and counted, and the number made stays within the limit |
| NgxOutput.Output.CopyBuf | nginx-1.7.2/src/core/ngx_output_chain.c:458-598 | bytes move from the first input buffer into a buffer that was empty and not held by the filter |
| NgxOutput.Output.Send | nginx-1.7.2/src/core/ngx_output_chain.c:206-210 | any in-order consumer: what it has consumed and what it still holds is what it was given |
| NgxOutput.Output.UpdateChains | nginx-1.7.2/src/core/ngx_buf.c:183-220 | consumed buffers are recycled or dropped in order; the stream is unchanged and the first busy buffer is not empty |
| NgxOutput.Output.HandOver | nginx-1.7.2/src/core/ngx_output_chain.c:206-214 | sending and recycling together keep the stream |
| NgxOutput.Output.Pass | nginx-1.7.2/src/core/ngx_output_chain.c:60-68 | sending a buffer past the busy list keeps the stream and the invariant |
| NgxOutput.Output.Progress | nginx-1.7.2/src/core/ngx_output_chain.c:206-210 | whenever the filter consumes more on its own, the stream and the lists stay |
| NgxOutput.Output.Receive | nginx-1.7.2/src/core/ngx_output_chain.c:263-329 | new input buffers are distinct from all buffers in use and hold the given bytes |
| NgxOutput.Output.constructor | nginx-1.7.2/src/core/ngx_output_chain.c:41-80 | nothing is on its way |
| NgxOutput.TempBound | nginx-1.7.2/src/core/ngx_output_chain.c:155-157 | any set of temporary buffers that are free, outgoing, busy or held by the filter has at most bufs.num members |
| NgxOutput.SentKeeps | nginx-1.7.2/src/core/ngx_output_chain.c:206-210 | an arbitrary partial consumption of pending and outgoing buffers keeps the invariant and the stream |
| NgxOutput.ShortKeeps | nginx-1.7.2/src/core/ngx_output_chain.c:60-68 | so does consumption on the short path, where the busy list does not record the buffer |
| NgxOutput.RecycleKeeps | nginx-1.7.2/src/core/ngx_buf.c:207-218 | a temporary buffer that returns to the free list is no longer held by the filter, so refilling it destroys nothing |
| NgxOutput.ArriveKeeps | nginx-1.7.2/src/core/ngx_output_chain.c:263-329 | adding input extends the stream by its bytes |
| NgxOutput.CopyKeeps | nginx-1.7.2/src/core/ngx_output_chain.c:458-598 | copying into the first free buffer keeps order, validity and the buffer count |
| NgxOutput.NewKeeps | nginx-1.7.2/src/core/ngx_output_chain.c:382-455 | a new buffer keeps the count within the limit |
| NgxOutput.PassKeeps | nginx-1.7.2/src/core/ngx_output_chain.c:121-133 | moving a link to the output keeps the stream |
| NgxOutput.DropKeeps | nginx-1.7.2/src/core/ngx_output_chain.c:99-119 | dropping an empty buffer keeps the stream |
| NgxOutput.ForgetKeeps | nginx-1.7.2/src/core/ngx_buf.c:207-211 | dropping a consumed foreign buffer keeps the stream and the count |
| NgxChain.AsIsSound | nginx-1.7.2/src/core/ngx_output_chain.c:219-260 | a buffer is passed on exactly when the filter can use its form, and the decision changes no byte |
| NgxChain.CopySound | nginx-1.7.2/src/core/ngx_output_chain.c:458-598 | the copy holds exactly the first bytes of the source and is of a form the filter accepts |
| NgxChain.AdvanceBytes | nginx-1.7.2/src/core/ngx_output_chain.c:458-598 | advancing a buffer in memory and file drops exactly that many bytes from its front |
| NgxChain.TakeBytes | nginx-1.7.2/src/core/ngx_output_chain.c:206-210 | what is taken from the front of a chain and what remains concatenate to what was there |
| NgxFileCacheOps.Cache.Open | nginx-1.7.2/src/core/ngx_open_file_cache.c:143-486 | the cache stays valid if and only if the request is not stale; the answer is exactly that of a look at the file system or the cached one; then a file answer has exactly one new holder of an open descriptor owned by the entry of that name, which is now the most recently accessed, no other holder changes, and every answer is what the file system shows now or showed for that name less than the valid time ago |
| NgxFileCacheOps.ReusedRun | nginx-1.7.2/src/core/ngx_open_file_cache.c:271-350 | a run from an empty cache that breaks it: a file is opened, and after its valid time its inode number is seen on a directory |
| NgxFileCacheOps.Cache.Renew | nginx-1.7.2/src/core/ngx_open_file_cache.c:295-349 | after a look the entry takes over the outcome or makes way for a new one; valid exactly when no inode was reused |
| NgxFileCacheOps.Cache.Release | nginx-1.7.2/src/core/ngx_open_file_cache.c:1017-1028 | one cleanup gives up exactly its own hold and the cache stays valid |
| NgxFileCacheOps.Cache.GiveBack | nginx-1.7.2/src/core/ngx_open_file_cache.c:1031-1074 | a descriptor is closed exactly when its last holder leaves a detached or too little used entry; an attached entry moves to the head of the queue |
| NgxFileCacheOps.Cache.Expire | nginx-1.7.2/src/core/ngx_open_file_cache.c:1094-1142 | removes a suffix of the queue, all of it idle except the forced one, and stops at the first entry that is not; the forced entry is the least recently accessed |
| NgxFileCacheOps.Cache.DiscardLast | nginx-1.7.2/src/core/ngx_open_file_cache.c:1116-1140 | the entry that leaves was accessed no later than any that stays |
| NgxFileCacheOps.Cache.Retest | nginx-1.7.2/src/core/ngx_open_file_cache.c:271-350 | looking again keeps the cache valid if and only if the inode number of the cached open file is not seen on a directory |
| NgxFileCacheOps.Cache.Reopen | nginx-1.7.2/src/core/ngx_open_file_cache.c:217-228 | a file closed for lack of use is opened again with one holder |
| NgxFileCacheOps.Cache.Answer | nginx-1.7.2/src/core/ngx_open_file_cache.c:230-269 | a cached answer is repeated, with one more holder for a file |
| NgxFileCacheOps.Cache.OpenNew | nginx-1.7.2/src/core/ngx_open_file_cache.c:352-358 | a name that is not cached is looked up, and entered when its outcome may be cached |
| NgxFileCacheOps.Cache.Create | nginx-1.7.2/src/core/ngx_open_file_cache.c:360-451 | room is made, the entry is created at the head of the queue, or without memory all is as before |
| NgxFileCacheOps.Cache.MakeRoom | nginx-1.7.2/src/core/ngx_open_file_cache.c:362-364 | afterwards fewer entries than the maximum are cached |
| NgxFileCacheOps.Cache.Insert | nginx-1.7.2/src/core/ngx_open_file_cache.c:366-391 | tree and count grow by exactly the new entry; what the code leaves unset in a new error entry is arbitrary |
| NgxFileCacheOps.Cache.Settle | nginx-1.7.2/src/core/ngx_open_file_cache.c:393-451 | what was found is recorded, a file gets its holder, the entry becomes the most recent |
| NgxFileCacheOps.Cache.Note | nginx-1.7.2/src/core/ngx_open_file_cache.c:397-424 | the recorded outcome agrees with the file system and keeps the entry consistent |
| NgxFileCacheOps.Cache.TakeOut | nginx-1.7.2/src/core/ngx_open_file_cache.c:211-215 | the entry in hand leaves the queue and counts one more use |
| NgxFileCacheOps.Cache.Put | nginx-1.7.2/src/core/ngx_open_file_cache.c:426-430 | the entry in hand becomes the most recently accessed |
| NgxFileCacheOps.Cache.Grant | nginx-1.7.2/src/core/ngx_open_file_cache.c:436-446 | count and outstanding cleanups grow together |
| NgxFileCacheOps.Cache.Requeue | nginx-1.7.2/src/core/ngx_open_file_cache.c:1039-1045 | a released entry moves to the head of the queue |
| NgxFileCacheOps.Cache.Discard | nginx-1.7.2/src/core/ngx_open_file_cache.c:453-476 | an entry leaves the tree; it survives exactly when it is still held |
| NgxFileCacheOps.Cache.Detach | nginx-1.7.2/src/core/ngx_open_file_cache.c:343-347 | a held entry leaves the tree and is marked for closing |
| NgxFileCacheOps.Cache.CloseEntry | nginx-1.7.2/src/core/ngx_open_file_cache.c:1058-1066 | closing the descriptor of an unused entry leaves all other descriptors open |
| NgxFileCacheOps.Cache.GiveUp | nginx-1.7.2/src/core/ngx_open_file_cache.c:478-485 | without memory the new descriptor is closed and nothing else changes; when the descriptor was an entry's own the cache is broken |
| NgxFileCacheOps.Cache.Opened | nginx-1.7.2/src/core/ngx_open_file_cache.c:876-888 | a look opens at most one descriptor, which nobody else has |
| NgxFileCacheOps.Cache.CloseFile | nginx-1.7.2/src/core/ngx_open_file_cache.c:1060-1063 | closing a descriptor that is not open is counted as a stray close |
| NgxFileCacheOps.Cache.constructor | nginx-1.7.2/src/core/ngx_open_file_cache.c:56-85 | an empty cache is valid |
| NgxFileCacheOps.LastOldest | nginx-1.7.2/src/core/ngx_open_file_cache.c:1116-1118 | the last entry of the queue is the least recently accessed |
| NgxFileCacheOps.GivenUp | nginx-1.7.2/src/core/ngx_open_file_cache.c:453-485 | giving up keeps the state consistent if and only if the descriptor closed was a new one |
| NgxFileCache.DirectoryHasNoFd | nginx-1.7.2/src/core/ngx_open_file_cache.c:839-945 | a look returns a directory together with a descriptor if and only if the cached inode number is seen on a directory |
| NgxFileCache.StatSays | nginx-1.7.2/src/core/ngx_open_file_cache.c:839-945 | every outcome of a look that may be cached agrees with the file system |
| NgxFileCache.TakeKeeps | nginx-1.7.2/src/core/ngx_open_file_cache.c:211-215 | taking an entry out of the queue keeps tree, queue and count in step |
| NgxFileCache.PutKeeps | nginx-1.7.2/src/core/ngx_open_file_cache.c:426-430 | putting it back at the head keeps the queue ordered by access time |
| NgxFileCache.GrantKeeps | nginx-1.7.2/src/core/ngx_open_file_cache.c:436-446 | a new holder keeps count equal to the outstanding cleanups of every entry |
| NgxFileCache.ReleaseKeeps | nginx-1.7.2/src/core/ngx_open_file_cache.c:1022-1024 | so does a release |
| NgxFileCache.CloseKeeps | nginx-1.7.2/src/core/ngx_open_file_cache.c:1058-1066 | closing keeps every open descriptor owned by exactly one entry |
| NgxFileCache.AttachKeeps | nginx-1.7.2/src/core/ngx_open_file_cache.c:397-422 | an entry that takes over a new descriptor keeps ownership unique |
| NgxFileCache.CreateKeeps | nginx-1.7.2/src/core/ngx_open_file_cache.c:384-391 | a new entry keeps tree, queue and count in step |
| NgxFileCache.DetachKeeps | nginx-1.7.2/src/core/ngx_open_file_cache.c:343-347 | a detached entry keeps its holders and its descriptor |
| NgxFileCache.FreeKeeps | nginx-1.7.2/src/core/ngx_open_file_cache.c:1068-1073 | a freed entry leaves no holder behind |
| NgxPool.Pool.Alloc | nginx-1.7.2/src/core/ngx_palloc.c:120-176 | every allocation returns a region disjoint from all live ones and from block headers, aligned when asked, or changes nothing that is live; the mutual recursion with large allocations terminates; current never moves back |
| NgxPool.Pool.AllocSmall | nginx-1.7.2/src/core/ngx_palloc.c:125-143 | the first block from current on with room serves the request; a new block is made only when there is none, and the request fails only then |
| NgxPool.Pool.AllocBlock | nginx-1.7.2/src/core/ngx_palloc.c:179-216 | the new block comes last, every block passed over has failed once more, and current moves behind exactly those that had failed more than four times |
| NgxPool.Pool.AllocLarge | nginx-1.7.2/src/core/ngx_palloc.c:219-255 | a large request is served from system memory hung on exactly one header, which itself may come from the pool; on failure the memory is given back |
| NgxPool.Pool.EmptySlot | nginx-1.7.2/src/core/ngx_palloc.c:231-242 | the first header without memory among those looked at |
| NgxPool.Pool.HangInSlot | nginx-1.7.2/src/core/ngx_palloc.c:233-237 | the chunk becomes live under that header |
| NgxPool.Pool.HangOnNew | nginx-1.7.2/src/core/ngx_palloc.c:244-254 | a failed header allocation gives the chunk back |
| NgxPool.Pool.Hang | nginx-1.7.2/src/core/ngx_palloc.c:250-252 | a hung chunk belongs to exactly one header |
| NgxPool.Pool.TakeChunk | nginx-1.7.2/src/core/ngx_palloc.c:226-229 | system memory is disjoint from everything in use |
| NgxPool.Pool.Obtain | nginx-1.7.2/src/core/ngx_palloc.c:226-229 | the system allocator returns unused aligned memory or none |
| NgxPool.Pool.Carve | nginx-1.7.2/src/core/ngx_palloc.c:132-136 | advancing last makes exactly the bytes passed over live |
| NgxPool.Pool.Free | nginx-1.7.2/src/core/ngx_palloc.c:283-300 | succeeds if and only if the address is that of a large allocation, and then ends exactly that region; a null pointer succeeds exactly when some header was freed before, and changes nothing |
| NgxPool.Pool.Reset | nginx-1.7.2/src/core/ngx_palloc.c:96-116 | no region is live, no chunk is kept, every block stays and is empty behind its header with no failures |
| NgxPool.Pool.Stretch | nginx-1.7.2/src/core/ngx_array.c:62-71 | a region at the end of the first block grows into its free space |
| NgxPool.Pool.Shrink | nginx-1.7.2/src/core/ngx_array.c:37-43 | giving back the last region ends exactly that region |
| NgxPool.Pool.constructor | nginx-1.7.2/src/core/ngx_palloc.c:16-41 | a new pool has one empty block and no live region |
| NgxPool.BumpedFails | nginx-1.7.2/src/core/ngx_palloc.c:203-213 | after a new block, failure counts still never increase along the chain from current, and every block before current has failed at least six times |
| NgxPool.CarveKeeps | nginx-1.7.2/src/core/ngx_palloc.c:132-136 | carving keeps all live regions pairwise disjoint and inside their blocks |
| NgxPool.AddBlockKeeps | nginx-1.7.2/src/core/ngx_palloc.c:179-216 | so does a new block |
| NgxPool.HangKeeps | nginx-1.7.2/src/core/ngx_palloc.c:233-254 | so does a new large allocation, and each chunk keeps exactly one header |
| NgxPool.FreeKeeps | nginx-1.7.2/src/core/ngx_palloc.c:288-297 | so does freeing one |
| NgxPool.ResetKeeps | nginx-1.7.2/src/core/ngx_palloc.c:96-116 | so does a reset |
| NgxPool.ExtendKeeps | nginx-1.7.2/src/core/ngx_array.c:62-71 | so does growing the last region in place |
| NgxPool.ShrinkKeeps | nginx-1.7.2/src/core/ngx_array.c:37-43 | so does giving back the last region |
| NgxPool.LastIsFirst | nginx-1.7.2/src/core/ngx_array.c:62-63 | a region that ends where the first block is filled up to lies in the first block |
| NgxArray.Create | nginx-1.7.2/src/core/ngx_array.c:12-27 | header and elements are two new regions; the array is empty |
| NgxArray.Array.constructor | nginx-1.7.2/src/core/ngx_array.c:12-27 | an array over given regions is empty |
| NgxArray.Array.Push | nginx-1.7.2/src/core/ngx_array.c:47-91 | the contents grow by one element, earlier elements stay, in place or moved; on failure nothing changes; every other region and its contents stay |
| NgxArray.Array.PushN | nginx-1.7.2/src/core/ngx_array.c:94-141 | the same for any number of elements |
| NgxArray.Array.Grow | nginx-1.7.2/src/core/ngx_array.c:104-135 | capacity suffices afterwards; contents are unchanged |
| NgxArray.Array.GrowInPlace | nginx-1.7.2/src/core/ngx_array.c:110-119 | the elements stay where they are |
| NgxArray.Array.Move | nginx-1.7.2/src/core/ngx_array.c:121-134 | the copy holds the old contents |
| NgxArray.Array.Destroy | nginx-1.7.2/src/core/ngx_array.c:30-44 | elements, and then header, are given back exactly when they are the last region of the first block at that point |
| Semaphore.Counters | apue/lib/semaph.c:49-253 | in every run of any number of processes with crashes at any step, as long as nobody reads the counter after it has run out, the lock counter is the number of lock holders, at most one, and the process counter is zero before initialisation and BIGCOUNT minus the openers after it |
| Semaphore.StepKeeps | apue/lib/semaph.c:89-253 | every system call and every process exit keeps the invariant, except a reading of the counter that has run out |
| Semaphore.RunInv | apue/lib/semaph.c:89-253 | the invariant holds in every state of every run in which nobody finds the counter run out |
| Semaphore.InitialisedAlone | apue/lib/semaph.c:138-153 | a process that sets initial values is the only one concerned: nobody has the set open |
| Semaphore.InitialisedAgain | apue/lib/semaph.c:135-153 | a ready set is taken for a new one if and only if BIGCOUNT processes have it open |
| Semaphore.ReadExactly | apue/lib/semaph.c:135-138 | reading the process counter keeps the invariant if and only if fewer than BIGCOUNT processes have the set open |
| Semaphore.Fill | apue/lib/semaph.c:89-162 | for every n up to BIGCOUNT there is a run of sem_create alone after which exactly n processes have the set open |
| Semaphore.RunsOut | apue/lib/semaph.c:89-153 | a run in which the next process finds the counter at zero and goes on to set the values under BIGCOUNT openers |
| Semaphore.RemovedFrom | apue/lib/semaph.c:222-253 | when sem_close removes a set, exactly those have it open who opened it after the counter was read |
| Semaphore.RemovedUnused | apue/lib/semaph.c:222-253 | in runs without sem_open, a removed set is open to nobody |
| Semaphore.OpenRace | apue/lib/semaph.c:174-253 | a run in which sem_close removes a set that sem_open has just opened |
| Semaphore.ExitKeeps | apue/lib/semaph.c:49-75 | undoing a process's adjustments in one atomic step at exit keeps both counters right |
| Semaphore.RmKeeps | apue/lib/semaph.c:207-212 | removal by anyone at any time keeps the invariant for all other sets |
| Semaphore.LockKeeps | apue/lib/semaph.c:124-128 | locking keeps the invariant |
| Semaphore.ReadKeeps | apue/lib/semaph.c:135-136 | reading the process counter keeps the invariant, by which the reading stays true while the lock is held |
| Semaphore.SetKeeps | apue/lib/semaph.c:146-152 | initialisation keeps the invariant |
| Semaphore.EndKeeps | apue/lib/semaph.c:159-160 | decrementing the process counter and unlocking in one step keep it |
| Semaphore.OpenKeeps | apue/lib/semaph.c:174-197 | opening an existing set keeps it |
| Semaphore.CloseKeeps | apue/lib/semaph.c:222-253 | locking and incrementing in one step keep it |
| Semaphore.RemoveKeeps | apue/lib/semaph.c:248-249 | removal at the end of sem_close keeps the invariant for every process that still names the set |
| NgxMd5.HashPieces | nginx-1.7.2/src/core/ngx_md5.c:22-115 | for every way of cutting a message into updates, the result is the MD5 of sections 3.1 to 3.5 of RFC 1321 of the whole |
| NgxMd5.Md5Ctx.Update | nginx-1.7.2/src/core/ngx_md5.c:34-62 | the context after an update is the context of the longer message |
| NgxMd5.Md5Ctx.Final | nginx-1.7.2/src/core/ngx_md5.c:65-115 | the digest is the MD5 of all that was given, with padding at every length |
| NgxMd5.Md5Ctx.Absorb | nginx-1.7.2/src/core/ngx_md5.c:42-61 | partial block, whole blocks and rest together absorb the data in order |
| NgxMd5.Md5Ctx.Keep | nginx-1.7.2/src/core/ngx_md5.c:45-48 | data that does not fill the buffer is kept |
| NgxMd5.Md5Ctx.Complete | nginx-1.7.2/src/core/ngx_md5.c:50-53 | a completed block is hashed and the buffer is empty |
| NgxMd5.Md5Ctx.Straight | nginx-1.7.2/src/core/ngx_md5.c:56-59 | whole blocks are hashed from the data itself |
| NgxMd5.Md5Ctx.Copy | nginx-1.7.2/src/core/ngx_md5.c:46-61 | copying fills the buffer behind what is there |
| NgxMd5.Md5Ctx.Body | nginx-1.7.2/src/core/ngx_md5.c:173-287 | the state is folded over all blocks |
| NgxMd5.Md5Ctx.constructor | nginx-1.7.2/src/core/ngx_md5.c:22-31 | the context of the empty message |
| NgxMd5.Block | nginx-1.7.2/src/core/ngx_md5.c:190-279 | 64 unrolled steps and the final addition are the compression function of the standard |
| NgxMd5.StepsAreOps | nginx-1.7.2/src/core/ngx_md5.c:135-138 | four macro steps with rotated roles are four numbered operations of the standard |
| NgxMd5.Round1 | nginx-1.7.2/src/core/ngx_md5.c:198-213 | the first sixteen steps are operations 1 to 16 |
| NgxMd5.Round2 | nginx-1.7.2/src/core/ngx_md5.c:217-232 | the next sixteen are operations 17 to 32 |
| NgxMd5.Round3 | nginx-1.7.2/src/core/ngx_md5.c:236-251 | the next sixteen are operations 33 to 48 |
| NgxMd5.Round4 | nginx-1.7.2/src/core/ngx_md5.c:255-270 | the last sixteen are operations 49 to 64 |
| NgxMd5.F | nginx-1.7.2/src/core/ngx_md5.c:126-126 | the rewritten form is the function F of the standard |
| NgxMd5.G | nginx-1.7.2/src/core/ngx_md5.c:127-127 | the rewritten form is the function G of the standard |
| NgxMd5.FoldAppend | nginx-1.7.2/src/core/ngx_md5.c:173-287 | hashing in portions of whole blocks is hashing in one go |
| NgxMd5.PadWhole | nginx-1.7.2/src/core/ngx_md5.c:70-95 | padding always reaches a whole number of blocks with at least one and at most 64 bytes before the length |
| NgxMd5.LastBlocks | nginx-1.7.2/src/core/ngx_md5.c:70-95 | the one or two final blocks that the code forms are the padded end of the message |
| NgxCrc32.Short | nginx-1.7.2/src/core/ngx_crc32.h:20-35 | the 16-entry form computes the bit-by-bit CRC of section 3.4 of RFC 2083 for every byte string |
| NgxCrc32.Long | nginx-1.7.2/src/core/ngx_crc32.h:38-50 | so does the 256-entry form |
| NgxCrc32.Update | nginx-1.7.2/src/core/ngx_crc32.h:57-69 | an incremental update advances the register bit by bit over its bytes |
| NgxCrc32.Pieces | nginx-1.7.2/src/core/ngx_crc32.h:53-73 | init, any split into updates, and final give the CRC of the whole |
| NgxCrc32.RegisterAppend | nginx-1.7.2/src/core/ngx_crc32.h:57-69 | the register over a concatenation is the register over its parts |
| NgxCrc32.Table16Ok | nginx-1.7.2/src/core/ngx_crc32.c:26-31 | each of the 16 constants is four bit steps of its index |
| NgxCrc32.Table256Ok | nginx-1.7.2/src/core/ngx_crc32.c:34-99 | each of the 256 constants is eight bit steps of its index |
| NgxCrc32.Nibble | nginx-1.7.2/src/core/ngx_crc32.h:30-31 | four bit steps of any word are one lookup of its low bits and a shift |
| NgxCrc32.WholeByte | nginx-1.7.2/src/core/ngx_crc32.h:46-46 | eight bit steps of any word are one lookup of its low byte and a shift |
| NgxCrc32.TwoNibbles | nginx-1.7.2/src/core/ngx_crc32.h:28-32 | the two half steps of the short form are eight bit steps |
| NgxCrc32.BitXor | nginx-1.7.2/src/core/ngx_crc32.c:26-31 | a bit step distributes over exclusive or |
| NgxInetText.ShowParses | nginx-1.7.2/src/core/ngx_inet.c:58-359 | for every 16-byte address, parsing its text gives back the address, and fails exactly for addresses whose text ends in 255.255.255.255 |
| NgxInetText.Ntop | nginx-1.7.2/src/core/ngx_inet.c:285-359 | the text is empty exactly when the room is short, stays within it, compresses only the first longest run of at least two zero groups, and parses back |
| NgxInetText.FindRun | nginx-1.7.2/src/core/ngx_inet.c:296-322 | the first longest run of at least two zero groups, or none |
| NgxInetText.BestCloses | nginx-1.7.2/src/core/ngx_inet.c:303-322 | closing a run keeps the best run found so far the first longest |
| NgxInetText.PrintGroups | nginx-1.7.2/src/core/ngx_inet.c:339-352 | the groups are printed in order with one double colon for the run |
| NgxInetText.Reads | nginx-1.7.2/src/core/ngx_inet.c:58-171 | from any group on, the parser reads what was printed |
| NgxInetText.NotLost | nginx-1.7.2/src/core/ngx_inet.c:327-337 | an address printed without dotted tail always parses |
| NgxInetText.ShowLength | nginx-1.7.2/src/core/ngx_inet.h:24-27 | no text exceeds the declared buffer length |
| NgxInetText.InetDotted | nginx-1.7.2/src/core/ngx_inet.c:17-53 | a printed dotted tail is read as its four bytes |
| NgxInet.InetAddr | nginx-1.7.2/src/core/ngx_inet.c:17-53 | succeeds exactly for three dots between four fields that are numbers below 256 modulo the 64-bit counter, an empty field being zero, and then returns the 32-bit number they form |
| NgxInet.InetExactly | nginx-1.7.2/src/core/ngx_inet.c:17-53 | the character loop equals that description by fields, for every text |
| NgxInet6.Inet6Exactly | nginx-1.7.2/src/core/ngx_inet.c:58-171 | for every text: one leading colon is skipped; then come hexadecimal groups of one to four digits, at most one empty group but the last, which stands for the missing zeros, and a last group that may be dotted, or empty if there is an empty one before |
| NgxInet6.ScanIsRest | nginx-1.7.2/src/core/ngx_inet.c:81-143 | from any point of the text, the character loop does what the groups that are left mean |
| NgxInet6.StrayColons | nginx-1.7.2/src/core/ngx_inet.c:76-107 | texts with a stray colon in front or at the end that are accepted |
| NgxInet6.Inet6Addr | nginx-1.7.2/src/core/ngx_inet.c:58-171 | the in-place parser accepts exactly the texts that have a meaning by their groups between colons, and stores that address |
| NgxInet6.DottedTail | nginx-1.7.2/src/core/ngx_inet.c:109-124 | a dotted tail is stored as two groups, or refused |
| NgxInet6.Conclude | nginx-1.7.2/src/core/ngx_inet.c:145-170 | the last group is stored and zeros go where the double colon stood |
| NgxInet6.InsertZeros | nginx-1.7.2/src/core/ngx_inet.c:152-162 | zeros are inserted in place and the groups behind them move up unharmed |
| NgxInet6.MoveUp | nginx-1.7.2/src/core/ngx_inet.c:155-159 | the backward copy moves an overlapping stretch intact |
| NgxConf.ConfFile.ReadToken | nginx-1.7.2/src/core/ngx_conf_file.c:430-734 | through the refilled 4096-byte buffer the same words, terminator, position and line come out as from the whole file in memory, except the too-long error, which comes exactly when a retained span fills the buffer |
| NgxConf.ConfFile.Supply | nginx-1.7.2/src/core/ngx_conf_file.c:460-534 | the next character is in the buffer with the whole retained span, or the file is at its end, or the span has filled the buffer |
| NgxConf.ConfFile.Refill | nginx-1.7.2/src/core/ngx_conf_file.c:482-533 | moving the span to the front and reading on loses and repeats nothing |
| NgxConf.ConfFile.Move | nginx-1.7.2/src/core/ngx_conf_file.c:506-508 | the overlapping move keeps the retained span |
| NgxConf.ConfFile.Read | nginx-1.7.2/src/core/ngx_conf_file.c:510-533 | the bytes read continue the file |
| NgxConf.ConfFile.constructor | nginx-1.7.2/src/core/ngx_conf_file.c:142-157 | an empty buffer at the start of the file |
| NgxConf.Unescape | nginx-1.7.2/src/core/ngx_conf_file.c:688-719 | the copying loop removes exactly the escapes of the specification |
| NgxConf.EscapedBack | nginx-1.7.2/src/core/ngx_conf_file.c:688-719 | any word quoted with escapes is read back as itself |
| NgxConf.WrittenIsRead | nginx-1.7.2/src/core/ngx_conf_file.c:430-734 | any non-empty list of words, each quoted and escaped, followed by a semicolon, is read back as those words |
| NgxConf.Next | nginx-1.7.2/src/core/ngx_conf_file.c:536-733 | one character taken by the loop is one step of the tokenizer on the whole file, and keeps whether it is too long |
| NgxConf.Overlong | nginx-1.7.2/src/core/ngx_conf_file.c:484-504 | a span of buffer length with more file to come is too long |
| Game.Game.Play | 2048.c/2048.c:352-420 | after any keys every tile is a power of two of at least two; the score is the sum of (k-1)*2^k over tiles 2^k less four for every inserted four if and only if nothing was carried over from a board given up, as when r is never pressed, and else more by what was carried over; the game is reported over only when no move changes the board |
| Game.Game.Restart | 2048.c/2048.c:407-412 | the board is new and the score is not: it agrees with the tiles if and only if it was zero |
| Game.StaleScore | 2048.c/2048.c:352-412 | on every board of two by two cells or more, a game whose score does not agree with its tiles |
| Game.Game.GameEnded | 2048.c/2048.c:204-214 | leaves the board unchanged and, with a tile on it, is true exactly when none of the four moves changes it |
| Board.EndedExactly | 2048.c/2048.c:180-214 | full and without equal neighbours in either direction means exactly that no move changes the board, for every board size |
| Game.Game.SlideArray | 2048.c/2048.c:104-125 | the in-place slide is compact-and-merge-once of the line; the score grows by the merged values; success exactly when something changed |
| Game.Game.FindTarget | 2048.c/2048.c:80-102 | the backward search finds the target of the specification |
| Game.Game.MoveTile | 2048.c/2048.c:110-122 | a move or merge of one tile |
| Game.Game.RotateBoard | 2048.c/2048.c:127-139 | the four-way in-place exchange is a quarter turn of the whole board, for every size |
| Game.Game.Turn | 2048.c/2048.c:131-136 | one exchange turns four cells and no others |
| Game.Game.MoveUp | 2048.c/2048.c:141-148 | every line is slid; success exactly when the board changed |
| Game.Game.MoveLeft | 2048.c/2048.c:150-158 | turning, sliding and turning back slides along the other axis |
| Game.Game.MoveDown | 2048.c/2048.c:160-168 | the same, backwards |
| Game.Game.MoveRight | 2048.c/2048.c:170-178 | the same, backwards along the other axis |
| Game.Game.FindPairDown | 2048.c/2048.c:180-189 | true exactly when some line has two equal neighbours |
| Game.Game.CountEmpty | 2048.c/2048.c:191-202 | the number of empty cells |
| Game.Game.EmptyCells | 2048.c/2048.c:227-235 | all empty cells, each once, in row order |
| Game.Game.AddRandom | 2048.c/2048.c:216-244 | the empty cell with the drawn number gets a two or, for the last of ten draws, a four; a full board stays |
| Game.Game.Move | 2048.c/2048.c:357-377 | a move in any direction is its specification; success exactly when the board changed |
| Game.Game.Insert | 2048.c/2048.c:378-382 | an insertion keeps the score equation and what was carried over, and leaves a tile on the board |
| Game.Game.Press | 2048.c/2048.c:357-377 | a move keeps the score equation, what was carried over and the sum of the board |
| Game.Game.constructor | 2048.c/2048.c:352-352 | an empty board and no score |
| Game.MoveKeeps | 2048.c/2048.c:104-178 | a move in any direction keeps tiles powers of two and the sum of the board, and adds its gain to the points |
| Game.HolesFull | 2048.c/2048.c:191-202 | no empty cell is counted exactly on a full board |
| Game.ChangedBoard | 2048.c/2048.c:150-178 | a turned board changes exactly when the board itself changes |
| Board.FullTurn | 2048.c/2048.c:127-139 | four quarter turns are the identity |
| Board.LeftAcross | 2048.c/2048.c:150-158 | moving left slides each row |
| Board.DownReversed | 2048.c/2048.c:160-168 | moving down slides each line read backwards |
| Board.RightAcross | 2048.c/2048.c:170-178 | moving right slides each row read backwards |
| Tiles.PushIsMerge | 2048.c/2048.c:104-125 | pushing tiles one by one is merging equal neighbours once from the front, with the same points |
| Tiles.FoundIsTarget | 2048.c/2048.c:80-102 | the loop with its stop index stops at the place where the pile takes the tile |
| Tiles.SlidNext | 2048.c/2048.c:104-125 | one round of the loop extends the finished part by one tile |
| Tiles.SlidWhole | 2048.c/2048.c:104-125 | after the last round the line is the slid line |
| Tiles.FirstMove | 2048.c/2048.c:110-122 | a tile that moves means that the slid line differs |
| Tiles.SlideFixed | 2048.c/2048.c:104-125 | a line stays as it is exactly when it has no gap before a tile and no equal neighbours |
| Scoring.TilePoints | 2048.c/2048.c:104-125 | a tile 2^k is worth (k-1)*2^k points |
| Scoring.SumSlide | 2048.c/2048.c:104-125 | sliding conserves the sum of a line and adds its gain to the points |
| Scoring.SlideTiles | 2048.c/2048.c:104-125 | sliding keeps tiles powers of two |
| Scoring.SumRotated | 2048.c/2048.c:127-139 | a turn conserves every sum |
| Scoring.SumUp | 2048.c/2048.c:141-148 | a move up conserves the sum and adds its gain to the points |
| Scoring.SumPlaced | 2048.c/2048.c:237-243 | an insertion adds the value of the new tile |

## Left out

- Opening and closing files, `flock` failures, buffer allocation, statistics counters and error reporting of the database.
- `db_rewind` and `db_nextrec` running beside other processes; a process that dies inside a database call.
- DbTheorems.Serializable: keys contain no colon and no NUL byte, data has a legal length, and no process has exceeded a file limit; `FullOnlyAtLimit` says exactly when one does, and after that the library has ended the process with its locks and writes half done.
- DbStore.Db.Scan: keys of blanks only, and the empty key, are skipped by `db_nextrec`, because a blank key marks a deleted record; the contract says so.
- `ngx_hash_init` after the size search has failed.
- NgxHash.HashInit: room and counters stay within 16 bits, beyond which elements overlap; without names the bucket size is at least three pointers, below which the code divides by zero.
- NgxPacked.Pack: the bucket size is at least three pointers, and no level has counters that could wrap around.
- Allocation failures while keys are added or hashes built.
- NgxDns.SortedIsOrdered: keys hold no blanks or control characters, which sort below the dot or with it; the sort itself is any that orders by `ngx_dns_strcmp`.
- The combined exact, head and tail lookup, which only tries the three in turn.
- Direct I/O, asynchronous I/O, sendfile limits and the flush and last flags of recycled buffers in the output chain.
- NgxOutput.Output.OutputChain: nothing is claimed after an error; input buffers do not carry the context's own tag, and the buffer size is at least one.
- Vnode events, `openat`, symlink checks, read-ahead and direct I/O in the open-file cache; opening without a cache; the cache's own teardown.
- NgxFileCacheOps.Cache.Open: does not model the 24-bit width of `count` and the 32-bit width of `uses`.
- `ngx_pmemalign`, cleanup handlers, `ngx_destroy_pool`, and arrays whose header is not in the pool.
- NgxPool.Pool.Alloc: sizes are unbounded numbers on a 64-bit layout; an allocation of zero bytes makes no live region.
- What `sem_wait` and `sem_signal` promise about the value of the semaphore; semaphore identifiers are never used again.
- The clearing of the MD5 context after the digest is taken.
- The derivation of the MD5 table from sines: it is taken as constants.
- `ngx_crc32_table_init`, which copies the short table to an aligned address.
- Address parsing and name resolution beyond the three functions modelled.
- Read errors, allocation failures and the dispatch of directives in the configuration parser.
- Game.Game.Play: does not model the 16-bit tiles and the 32-bit score; drawing on the screen is not modelled, and keys come as a finite text.
- The remaining APUE examples, `webserver`, `linux_pro`, `gdb_test` and `c_programming`, which are demonstrations of input and output.
