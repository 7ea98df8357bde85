# Assemblyline: the dispatcher, markings and protocols, proved

Assemblyline takes files in, sends them through stages of services, and combines what the services
report. This project models the parts of it whose correctness depends on many steps fitting
together, and proves what they are for.

- **The dispatcher** (`al/core/dispatch.py`). A submission is a set of files; each file is an entry
  that walks stages, whose services move from outstanding to dispatched, acknowledged and completed,
  and which waits for the files extracted from it. Messages may come twice, late, out of order or for
  nobody. `DispatchModel`, `DispatchEvents`, `DispatchSubmit`, `DispatchTimeouts` and `DispatchSweep`
  give one function per event over a state; `DispatchInvariant` is what every event keeps;
  `DispatchRun` chains events into runs; `DispatchTheorems` says what that means. `DispatchProgress` and
  `DispatchCompletion` prove that from every reachable state the dispatcher can finish every
  submission by its own timeouts and replies alone, and `DispatchInevitable` that it does so in every
  run that keeps hearing these replies and looking at the time, within a bound. `DispatchLaws` says
  what each operation does to the state's fields, and `DispatchHistory` that what a run leaves behind
  is what its messages said: files get the services they were submitted for, and every failure the
  dispatcher answers for itself has its error record.
  `Dispatcher.dfy` is the object itself, with its dictionaries, loops and mutually recursive methods,
  each proved to change the state exactly as the function says; `DispatchScan` relates its timeout
  loops, which append to the very table they scan, to firing timeouts one by one.
- **The range table** (`common/iprange.py`). `IpBlocks` splits a range greedily into aligned blocks,
  `RangeTrie` is the trie as a value, and `RangeTable.dfy` is the trie of nodes changed in place,
  proved to answer like a plain map from addresses to values.
- **Markings** (`al/common/classification.py`). `Markings` holds the definition tables, the parser and
  the normaliser on character strings; `MarkingsText` and `MarkingsParse` prove that parsing undoes
  printing; `MarkingsNormal` and `MarkingsLong` prove exactly when normalising twice is normalising
  once; `MarkingsOps`, `MarkingsVisible` and `MarkingsFold` prove what the operators let users see and
  that the order of a fold does not matter; `MarkingsLaws` says name by name what normalising,
  printing, access and the operators come to; `MarkingsLoops` has the loops as they are written.
- **The escaper** (`common/charset.py`), in `Charset`.
- **Protocols**: the per-key scan lock (`ScanLock`) and duplicate parking (`Duplicates*`, `Ingester`)
  of `al/core/middleman.py`, the distributed backup (`Backup*`), the redis exclusion window
  (`ExclusionWindow`) and priority queue (`PriorityQueue`). Each is a machine whose steps are the
  atomic operations, with theorems over every interleaving. Scripts and loops that change state are
  methods of a class, tied to the steps.
- **Schedules**: the flex allocator of `al/core/agents.py` (`FlexAllocator`), and from
  `al/core/servicing.py` the expansion of categories (`Categories`) and the initial stage tables
  (`Servicing`).

Functions stand for pure code and for the specification of code that changes state. Fields marked
"record" have no counterpart in the program: nothing depends on them, and they let properties of
whole runs be stated. Time, heartbeats, services' own skip rules and the iteration order of
dictionaries and sets are arbitrary inputs.

## Where the code falls short of the obvious claim

- Assigning the whole address space reaches only addresses 0 to 255, since the computed depth is -1
  (`common/iprange.py:51`). `RangeTableObject.ReachesAllUnlessWhole` says exactly when a range is
  assigned in full.
- In long format a marking normalised twice can differ from the marking normalised once, although
  every limited subgroup also requires its group. `MarkingsLong.TwiceDiffers` is such a marking;
  `MarkingsNormal.NormalizeTwiceExactly` says exactly when the second time changes nothing.
- `unpush(0)` takes the whole queue (`al/common/queue.py:213-218`); `PriorityQueueObject.Server.Unpush`
  says that the last items are taken exactly for other numbers, or from an empty queue.
- `safe_str` merges some byte strings, unlike the reversible escape: `Charset.SafeStrMerges` is a pair,
  and `Charset.SafeStrMergesExactly` says exactly which strings are merged with no other.
- A notice can stay parked when a submission fails: `DuplicatesTheorems.FailureStrands` is a run that
  strands one, and `DuplicatesTheorems.StrandedExactly` says that duplicates are stranded exactly under
  keys whose scan the failure path dropped and nobody started again.
- The loop over categories does not end on every table: `Categories.CategoryOfItself` is a service named
  like its category (`al/core/servicing.py:391-395` builds such a table), and `Categories.HaltsExactly`
  says exactly which tables it always ends on.
- A category of one letter can be taken for seen because of another category's name
  (`al/core/servicing.py:317`): `Categories.LetterClash` is such a table, and `Categories.NamesDecide` says
  exactly which names categories may have for all services always to be found.
- explain_state says "No timeouts for this submission!" of submissions that are not stuck, since it
  looks at ack and service timeouts only: `DispatchTheorems.MessageAppears` says exactly when it does so
  of a new submission, `DispatchTheorems.MessageMeans` what it means in general.

## Model

| member | source | states |
|---|---|---|
| DispatchTheorems.NeverWedged | al/core/dispatch.py:962-989 | In every reachable state each submission in flight has an ack, service or child timeout armed, or a reply of the dispatcher's own on its way. |
| DispatchTheorems.MessageMeans | al/core/dispatch.py:962-989 | When explain_state says that a submission has no timeouts, every service it waits for has been answered by the dispatcher itself, and such an answer or an announced child is still to come. |
| DispatchTheorems.MessageAppears | al/core/dispatch.py:962-989 | In every reachable state, after a root has opened a submission that no timeout mentions yet, with any selection of services, the message appears if and only if the first stage with services holds all of them back: each is down, skips the file, or is refused by the limits of depth or files. |
| DispatchInevitable.Inevitable | al/core/dispatch.py:346-633 | Once no further file of a submission arrives, every run loses it, and does not get it back, within a number of rounds bounded by its files, the services and the retries. A round is any stretch of the run in which the replies owed at its beginning are heard and some pass comes late enough; all other messages, heartbeats and skip rules, at every step, are arbitrary. |
| DispatchInevitable.SomeRound | al/core/dispatch.py:346-633 | From every state there is such a round. |
| DispatchInevitable.RoundDrops | al/core/dispatch.py:379-633 | Each round lowers what the submission may still cost, in files, services and requests. |
| DispatchInevitable.StepDeclines | al/core/dispatch.py:346-857 | No step, whatever its message, brings a file of the submission or gives one more to do, unless it submits one; and an answer under way to a service that still remains is not lost. |
| DispatchInevitable.PotentialBound | al/core/dispatch.py:426-494 | What a submission may still cost is bounded by its files times one more than the services times 2 * max.retries + 4. |
| DispatchCompletion.AlwaysFinishes | al/core/dispatch.py:379-633 | From every reachable state with a submission in flight, and for all skip rules, heartbeats and iteration orders, a run of timeout passes and of the dispatcher's own replies ends with the submission gone and exactly one more final record pushed for it. |
| DispatchCompletion.FinishFiles | al/core/dispatch.py:118-203 | The files of a submission can be finished one by one, the youngest first, none coming in the meantime. |
| DispatchCompletion.FinishFile | al/core/dispatch.py:206-271 | A file without outstanding children can be finished: each of its remaining services is settled in turn, and announced children are given up. |
| DispatchCompletion.Settle | al/core/dispatch.py:426-494 | A service that is waited for can be settled: each pass either brings a reply or uses up one of the bounded requests. |
| DispatchProgress.PassActs | al/core/dispatch.py:379-633 | After a pass late enough for all timeouts, every service that had one armed, and whose timeout is still wanted, has a reply coming or was sent once more. |
| DispatchProgress.PassEmpties | al/core/dispatch.py:379-424 | Such a pass leaves no child timeout armed. |
| DispatchTheorems.EveryWaitIsArmed | al/core/dispatch.py:206-271 | In every reachable state a dispatched service has its ack timeout armed or a self-caused reply pending, an acknowledged one its service timeout or such a reply, an announced child its child timeout, and an entry that has walked all stages and is still held has an outstanding child or an armed child timeout. |
| DispatchTheorems.ParentsAreHeld | al/core/dispatch.py:118-203 | The parent of a held file is held and waits for it, every outstanding child is held and names this parent, and no file is both held and completed. |
| DispatchTheorems.FinalizedExactlyOnClosing | al/core/dispatch.py:118-203 | Over each step, final records pushed plus submissions in flight grow exactly by the submissions started: a submission ends with one final record, and only by losing its last file. |
| DispatchTheorems.FinalsAreRight | al/core/dispatch.py:118-203 | Every final record was caused by a root without outstanding children, carries the best total of any of its files as score, and exactly the keys of the completions, with no (file, service) twice. |
| DispatchTheorems.ServicesConserved | al/core/dispatch.py:206-271 | At every stage the four tables are pairwise disjoint and make up the services that the file's message selects there, or are empty once a service of an earlier stage has asked to drop the file; only the current stage has services under way; past a stage all its services are completed. |
| DispatchTheorems.KeysOncePerService | al/core/dispatch.py:635-746 | results and errors hold exactly the keys of the completions, each (file, service) completes at most once and completed exactly if the table says so, and a file's score is the sum over its completions. |
| DispatchTheorems.SentAtMost | al/core/dispatch.py:426-494 | Over any run a service is sent a file at most max.retries + 1 times. |
| DispatchHistory.FilesAreServed | al/core/dispatch.py:60-271 | In every final record of every run each file, root or extracted, came with a message of the run, has its classification, and has been completed by exactly the known services that message selects, apart from those of stages after one at which a service asked to drop it; every completion is an answer of the run. |
| DispatchHistory.HeldAsAsked | al/core/dispatch.py:60-116 | In every run a held file came with one of its messages and has that message's classification, parent and services, and one more than its depth if it is a child. |
| DispatchHistory.EveryFailureIsStored | al/core/dispatch.py:426-494 | Over every run the error records pushed for a service and file are as many as its failed replies pending or heard; so each failed reply still to come has its error record. |
| DispatchHistory.StepTells | al/core/dispatch.py:346-857 | No step pushes an error record without causing the failed reply, or the other way round; hearing a reply takes just that one off. |
| DispatchUpdate.DoneServed | al/core/dispatch.py:206-271 | A file that has walked all stages has been through exactly the services it was submitted for, up to the stage of a drop. |
| DispatchTheorems.PrefixScanIsFilter | al/core/dispatch.py:379-424 | In every reachable state the scanned front of every list of ack, service or child timeouts is exactly its expired part. |
| DispatchRun.NextKeeps | al/core/dispatch.py:346-857 | Every event, with any message at any later time, keeps the invariant. |
| DispatchRun.RunsKeep | al/core/dispatch.py:346-857 | Every run keeps the invariant. |
| DispatchRun.ReachableInv | al/core/dispatch.py:346-857 | The invariant holds in every state reached from the start. |
| DispatchRun.ServicedOver | al/core/dispatch.py:635-746 | After an answer that is not a recoverable failure the dispatcher waits for that service on that file nowhere any more, whatever the state the answer found. |
| DispatchModel.WithoutLinked | al/core/dispatch.py:118-203 | Taking a childless file out and telling its parent leaves the parent and child links of the others consistent and makes the submission smaller, which is why the recursive completion ends. |
| DispatchUpdate.NextStageStops | al/core/dispatch.py:206-271 | The stage walk stops at the end or at the first stage with work left, and skips only stages without. |
| DispatchUpdate.StageMoved | al/core/dispatch.py:206-271 | Entering the next stage keeps the entry's tables consistent, and whatever stage it stops at has services under way. |
| DispatchUpdate.UpdateKeeps | al/core/dispatch.py:206-271 | UpdateEntry, through its recursion with RemoveEntry up the chain of parents, restores the invariant that the event had suspended for its entry. |
| DispatchUpdate.RemoveKeeps | al/core/dispatch.py:118-203 | So does RemoveEntry, for an entry without outstanding children. |
| DispatchUpdate.BestAfter | al/core/dispatch.py:118-203 | The running submission score stays the maximum over the completed files of the sums of their service scores. |
| DispatchUpdate.ClosedFinal | al/core/dispatch.py:118-203 | The record pushed when the last file leaves agrees with the submission's history of completions. |
| DispatchLaws.RootSays | al/core/dispatch.py:118-203 | A finished root is completed with its classification and a record of the best total is stored; if it was the last file, so is the final record, with the same score, all keys and all files, and nothing of the submission stays. |
| DispatchLaws.ChildSays | al/core/dispatch.py:118-203 | A finished child is no longer held, and a parent that still is has it among its completed instead of its outstanding children. |
| DispatchSend.DispatchKeeps | al/core/dispatch.py:426-494 | dispatch keeps the invariant, and afterwards the service has an ack timeout armed or a reply pending, whether it was sent, skipped or refused (which of the three, and what is stored, is DispatchSays). |
| DispatchSend.DispatchCounts | al/core/dispatch.py:426-494 | The attempts counted in retries bound the requests actually sent. |
| DispatchLaws.DispatchSays | al/core/dispatch.py:426-494 | With the service down, or the retries used up, or on a first attempt beyond the depth or the files limit, exactly one error record with that reason is stored and nothing is sent; otherwise a file the service skips is answered for it, and any other is sent with an ack timeout of the service's timeout times the queue size plus 5, at most 7200. The attempt counts in each case. |
| DispatchEvents.AcknowledgedKeeps | al/core/dispatch.py:346-377 | acknowledged keeps the invariant for any message, including ones for unknown files or services not dispatched. |
| DispatchLaws.AcknowledgedSays | al/core/dispatch.py:346-377 | A dispatched service that acknowledges moves to the acknowledged ones, is still awaited, gets a service timeout at the end of its list, and its ack timeout no longer counts; any other acknowledgement changes nothing. |
| DispatchEvents.CreditKeeps | al/core/dispatch.py:635-746 | Recording an awaited answer keeps the invariant except for the entry's being due to move on. |
| DispatchEvents.ServicedKeeps | al/core/dispatch.py:635-746 | serviced keeps the invariant for any message: wrong queue, unknown file, service not waited for, recoverable or final failure, drop, announced children. |
| DispatchLaws.ServicedSays | al/core/dispatch.py:635-746 | An awaited answer enters the submission's history as it came; each child announced by a success that is neither held nor completed is expected by the file, with its child timeout armed; while the file expects a child it stays, and nothing but error records is stored. |
| DispatchLaws.ServicedOtherwise | al/core/dispatch.py:635-746 | An answer nobody waits for is ignored, one meant for another dispatcher only leaves the queue, and a recoverable failure leads to one more attempt and to nothing else. |
| DispatchSubmit.EnterKeeps | al/core/dispatch.py:60-116 | CreateEntry keeps the invariant but for the new entry's being due its first stage. |
| DispatchSubmit.ArrivedKeeps | al/core/dispatch.py:791-857 | The checks before an entry is made (queue of a child's message, unknown submission, file held or completed already, parent no longer held) keep the invariant, whether or not the file enters. |
| DispatchSubmit.SubmittedKeeps | al/core/dispatch.py:791-857 | submitted keeps the invariant for any message. |
| DispatchLaws.ArrivedSays | al/core/dispatch.py:60-116 | A file enters exactly if it is new to its submission and, being a child, is meant for this dispatcher and its parent is held; its entry is due exactly the services the message selects, each at its own stage, with the message's classification and parent; the parent waits for it and no longer expects it; no other file changes. |
| DispatchLaws.SubmittedSays | al/core/dispatch.py:791-857 | The message of a file that has entered stays with it until it goes into the final record; a message that enters no file stores, sends and answers nothing. |
| DispatchTimeouts.ExpiredExact | al/core/dispatch.py:579-603 | In a list ordered by time, the front up to the first unexpired timeout is exactly what a filter of the whole list selects. |
| DispatchTimeouts.ScanKeeps | al/core/dispatch.py:579-633 | Firing any number of timeouts off the front of a list keeps the invariant, although each may send again and arm new ones in the same table. |
| DispatchTimeouts.ScanFresh | al/core/dispatch.py:579-633 | Firing timeouts loses no other timeout and arms only unexpired ones. |
| DispatchLaws.FireSays | al/core/dispatch.py:579-633 | An expired timeout leads to one more attempt, and is armed again, exactly if its file is held and its service neither completed nor, for an ack timeout, acknowledged; otherwise it goes and nothing else happens. |
| DispatchSweep.CheckKeeps | al/core/dispatch.py:379-424 | A pass over the three tables keeps the invariant and, unless the last pass was too recent, leaves no expired timeout in any of them. |
| DispatchLaws.CheckSays | al/core/dispatch.py:379-424 | A pass is made exactly if the last one is long enough ago, leaves no expired timeout, and is remembered. |
| DispatcherObject.Dispatcher.Dispatch | al/core/dispatch.py:426-494 | The method changes the object's state as the model's dispatch does, which DispatchSays describes, and answers whether a request was sent. |
| DispatcherObject.Dispatcher.UpdateEntry | al/core/dispatch.py:206-271 | The stage loop, the sending loop and the recursion into RemoveEntry end, and together have the effect of the model's update. |
| DispatcherObject.Dispatcher.RemoveEntry | al/core/dispatch.py:118-203 | Has the effect of the model's removal, including telling the parent, pushing the final record and forgetting the submission. |
| DispatcherObject.Dispatcher.MoveToCompleted | al/core/dispatch.py:118-203 | The file's total enters the submission's score and the file moves from entries to completed; nothing else changes. |
| DispatcherObject.Dispatcher.CloseSubmission | al/core/dispatch.py:118-203 | The final record is pushed and nothing of the submission stays behind. |
| DispatcherObject.Dispatcher.Acknowledged | al/core/dispatch.py:346-377 | Keeps the object consistent and has the effect of the model's acknowledged. |
| DispatcherObject.Dispatcher.Redispatch | al/core/dispatch.py:605-633 | Sends again exactly if the file is held and the service not completed, nor acknowledged when an ack timeout fired; otherwise changes nothing. |
| DispatcherObject.Dispatcher.NoteChildren | al/core/dispatch.py:635-746 | The loop over announced children has the model's effect, which ServicedSays describes: each unknown child is awaited with a timeout. |
| DispatcherObject.Dispatcher.Serviced | al/core/dispatch.py:635-746 | Keeps the object consistent and has the effect of the model's serviced, which ServicedSays and ServicedOtherwise describe. |
| DispatcherObject.Dispatcher.Record | al/core/dispatch.py:635-746 | Recording an answer has the effect of the model's credit: service completed, key and score added, drop applied. |
| DispatcherObject.Dispatcher.Submitted | al/core/dispatch.py:791-857 | Keeps the object consistent and has the effect of the model's submitted, which ArrivedSays and SubmittedSays describe. |
| DispatcherObject.Dispatcher.Receive | al/core/dispatch.py:791-857 | Decides whether and how a file enters as the model does. |
| DispatcherObject.Dispatcher.Create | al/core/dispatch.py:60-116 | Makes the new entry as ArrivedSays describes it, links it to its parent, and changes no other entry. |
| DispatcherObject.Dispatcher.ProcessList | al/core/dispatch.py:579-603 | The loop that takes a list out of its table, fires its front and puts the rest back has the effect of firing the expired timeouts in place, although the table grows meanwhile. |
| DispatcherObject.Dispatcher.ProcessTimeouts | al/core/dispatch.py:579-603 | The loop over all lists of a table has the effect of the model's sweep. |
| DispatcherObject.Dispatcher.ProcessChildList | al/core/dispatch.py:379-424 | The loop over one list of child timeouts gives up the expired children and moves their parents on, as the model does. |
| DispatcherObject.Dispatcher.ProcessChildren | al/core/dispatch.py:379-424 | The same for all lists of child timeouts. |
| DispatcherObject.Dispatcher.CheckTimeouts | al/core/dispatch.py:379-424 | Keeps the object consistent and has the effect of the model's pass. |
| DispatcherObject.Dispatcher.Handle | al/core/dispatch.py:346-857 | Every event keeps the object consistent and is a step of the model, so what holds of every run of the model holds of every life of the object. |
| IpBlocks.AndMask | common/iprange.py:22-23 | Masking with 2^k - 1 takes the remainder modulo 2^k. |
| IpBlocks.ValidIsAligned | common/iprange.py:22-23 | A block of 2^k addresses is accepted exactly if it is aligned. |
| IpBlocks.NextSize | common/iprange.py:14-19 | The doubling loop ends with the size of an aligned block that fits, whose double does not. |
| IpBlocks.OrderIsLargest | common/iprange.py:14-19 | No larger power of two gives an aligned block there that fits, not only not the next. |
| IpBlocks.SplitTiles | common/iprange.py:71-75 | The blocks are aligned, each the largest at its start, follow one another without gap, and end at the upper bound. |
| IpBlocks.TilesCover | common/iprange.py:71-75 | An address lies in some block exactly if it lies in the range; the blocks are disjoint and inside it. |
| IpBlocks.AtMost64Blocks | common/iprange.py:71-75 | A range of 32-bit addresses has at most 64 blocks. |
| RangeTrie.GrownSame | common/iprange.py:59-69 | Expanding a leaf into 256 leaves, or hanging in an empty node, changes no answer. |
| RangeTrie.WrittenAnswers | common/iprange.py:59-69 | Writing at the end of a path gives the new value to exactly the addresses whose bytes begin with the path. |
| RangeTrie.PathPrefix | common/iprange.py:85-86 | Two addresses share their first n bytes exactly if they lie in the same aligned unit. |
| RangeTableObject.BlockSlice | common/iprange.py:45-57 | An address lies in an aligned block exactly if its bytes lie in the slice of paths the block is written as; for the whole space that slice is the addresses below 256. |
| RangeTableObject.RangeTable.AddPath | common/iprange.py:59-69 | In place, through nodes made and leaves expanded on the way: addresses that begin with the path answer the value, all others what they answered before. |
| RangeTableObject.RangeTable.GetItem | common/iprange.py:88-89 | Following the four bytes always ends with the answer or with none; it never runs off the path. |
| RangeTableObject.RangeTable.AddCidr | common/iprange.py:45-57 | The addresses of the block, and no others, get the value; of the whole space, the first 256. |
| RangeTableObject.RangeTable.AddBlocks | common/iprange.py:71-75 | The greedy loop assigns exactly the range, in at most 64 blocks. |
| RangeTableObject.RangeTable.AddRange | common/iprange.py:112-121 | Running the loop a second time changes no answer. |
| RangeTableObject.RangeTable.SetAddress | common/iprange.py:91-110 | Exactly one address changes its answer. |
| RangeTableObject.RangeTable.SetNetwork | common/iprange.py:91-110 | Exactly the addresses that share the network's bits get the value (below 256 only, for a network without bits). |
| RangeTableObject.RangeTable.AssignAll | common/iprange.py:91-121 | After any sequence of overlapping assignments each address answers the last one that reached it. |
| RangeTableObject.LatestSays | common/iprange.py:91-121 | The answer after a sequence of assignments is the value of the last range that reaches the address, and the old answer if none does; a range reaches the addresses it holds, but only those below 256 if it is the whole space. |
| RangeTableObject.NetworkBounds | common/iprange.py:91-110 | The bounds computed from address and mask enclose exactly the addresses of the network, within 32 bits. |
| RangeTableObject.ReachesAllUnlessWhole | common/iprange.py:45-57 | An assignment does what it says exactly if the range is not the whole space, or the addresses it then misses had the value already. |
| Charset.MatchIsEncoding | common/charset.py:60-72 | Whatever the pattern matches is the encoding of an allowed code point (section 4 of RFC 3629, without most control characters). |
| Charset.EncodingIsMatched | common/charset.py:60-72 | The encoding of every allowed code point is matched in full, whatever bytes follow. |
| Charset.EscapeIsByUnit | common/charset.py:75-79 | Splitting into alternating pieces and escaping by index parity treats each unit and each stray byte on its own. |
| Charset.EscapeSays | common/charset.py:75-99 | From the front, a byte that begins no match becomes a backslash, an x and its two lower-case hexadecimal digits, a backslash is doubled by the reversible escape only, and any other match stays. |
| Charset.OutputIsValid | common/charset.py:97-99 | Whatever the input, the output is a concatenation of encodings of allowed code points. |
| Charset.SafeIsValid | common/charset.py:102-107 | A string is safe exactly if it is valid; safe_str yields safe strings and is idempotent. |
| Charset.UnescapeEscape | common/charset.py:97-145 | For every byte string, decoding a reversible escape returns it. |
| Charset.ReversibleIsInjective | common/charset.py:97-99 | Reversible escapes of different strings differ. |
| Charset.SafeStrMerges | common/charset.py:102-103 | safe_str is not injective: two strings it merges. |
| Charset.SafeStrMergesExactly | common/charset.py:75-103 | No other string has the same safe_str if and only if the string is valid and nowhere in it stands the escape of a byte that would itself be escaped. |
| Text.SplitJoin | al/common/classification.py:318-351 | Splitting at a character undoes joining with it, for parts without it. |
| Text.SplitJoinDouble | al/common/classification.py:318-351 | Splitting at "//" undoes joining sections with it, leftmost match first, for sections that neither hold, begin nor end with a slash that could shift the match. |
| Text.RemoveOne | al/common/classification.py:318-351 | Removing every "REL TO " removes the one that was printed, and nothing else, from names free of it. |
| Sorting.OrderedUnique | al/common/classification.py:369-436 | A list has one sorted arrangement, so sorting hides the order in which a set was listed. |
| MarkingsParse.TokenStandsFor | al/common/classification.py:406-427 | Solitary display names and aliases included, the printed groups token names exactly the groups it was made from. |
| MarkingsParse.BodyParses | al/common/classification.py:274-351 | The printed sections read back as level, required tokens, groups and subgroups. |
| MarkingsParse.ParsePrint | al/common/classification.py:369-443 | For every well-formed definition and any lists of known names, parsing the text the normaliser prints gives the parts it settled on. |
| MarkingsLaws.ReadSays | al/common/classification.py:298-351 | A name is read from a marking exactly if one of its pieces is the short name, the long name or an alias of it: any piece between slashes for a required name, a comma or slash piece of any section, REL TO left out, for a group, and one that names no group for a subgroup. |
| MarkingsLaws.CaseSays | al/common/classification.py:274-351 | The letter case of a marking does not matter. |
| MarkingsLaws.LevelSays | al/common/classification.py:274-287 | The level is the one whose short name, long name or alias the marking begins with. |
| MarkingsNormal.WrittenParses | al/common/classification.py:274-351 | Every combination of known parts has a marking that parses to it. |
| MarkingsNormal.NormalizedParts | al/common/classification.py:788-808 | Parsing a normalised marking gives the normalised parts of the marking. |
| MarkingsNormal.DemandsAlgebra | al/common/classification.py:393-404 | However require_group and limited_to_group interleave along the list of subgroups, their joint effect is to keep some groups and to add some. |
| MarkingsNormal.NormalIs | al/common/classification.py:369-436 | What normalisation makes of each part: level raised, required names kept, groups kept, demanded and auto-selected, subgroups auto-selected. |
| MarkingsLaws.NormalizeSays | al/common/classification.py:369-436 | The normalised level is the marking's or the highest one that a required name asks for; required names stay; subgroups are joined by the auto-selected ones once there is one, unless that is skipped. |
| MarkingsLaws.RequiredGroupsSay | al/common/classification.py:393-408 | Where no subgroup is limited to a group, the groups are the marking's, those its subgroups require, and, once there is one, the auto-selected ones. |
| MarkingsLaws.LimitedGroupsSay | al/common/classification.py:393-408 | Where no subgroup requires a group, the groups are those of the marking that no subgroup is limited away from, and, once there is one, the auto-selected ones. |
| MarkingsLaws.PrintedSays | al/common/classification.py:369-418 | A required name stands in a section of its own, or with the group if it is one shown there; a single group stands by its solitary name, or else behind REL TO; an unknown level raises. |
| MarkingsLaws.ListSays | al/common/classification.py:418-427 | Several groups stand behind REL TO in order, in long format always and in short format when no alias stands for them. |
| MarkingsLaws.AliasSays | al/common/classification.py:419-426 | An alias that alone stands for exactly the groups is shown instead of them. |
| MarkingsNormal.NormalizeTwiceExactly | al/common/classification.py:788-808 | Normalising a second time changes no part if and only if the two lists of subgroups agree on what they add (up to what is kept or auto-selected anyway). |
| MarkingsNormal.NormalizeTwice | al/common/classification.py:788-808 | It changes nothing for every marking in short format, and in long format if auto-selection adds no subgroup or no subgroup is limited to a group. |
| MarkingsLong.TwiceDiffers | al/common/classification.py:393-404 | A well-formed definition and a marking on which, in long format, the second normalisation moves the marking from one group to another. |
| MarkingsOps.MaxTextIs | al/common/classification.py:700-740 | The maximum of two markings, printed and parsed, is the join of their normalised parts. |
| MarkingsOps.MinTextIs | al/common/classification.py:742-786 | The minimum is the meet of their normalised parts. |
| MarkingsOps.IntersectTextIs | al/common/classification.py:540-579 | The intersection of two users is the meet of levels and the common names of their parts. |
| MarkingsOps.AccessibleIs | al/common/classification.py:581-615 | Access is decided by level, required names, groups and subgroups of the parts alone. |
| MarkingsLaws.AccessSays | al/common/classification.py:581-615 | Under every well-formed definition a user may see a marking exactly if, in the two normalised texts, the user's level is at least the marking's, every required name is held, and for groups and for subgroups alike the marking has none or the two have one in common. |
| MarkingsLaws.NoneOfThemIsRefused | al/common/classification.py:581-615 | A marking with groups, or subgroups, none of which the user has is refused, and so is one with a required name not held or a higher level. |
| MarkingsLaws.MaxSays | al/common/classification.py:700-740 | The maximum has the higher level, the required names of both, and the groups and subgroups that both allow; if both restrict to groups, or subgroups, and share none, it is INVALID. |
| MarkingsLaws.MinSays | al/common/classification.py:742-786 | The minimum has the lower level, the required names that both have, and the groups and subgroups of either, or none where one of them has none. |
| MarkingsLaws.IntersectSays | al/common/classification.py:540-579 | The intersection has the lower level and exactly the required names, groups and subgroups that both users have. |
| MarkingsLaws.IntersectSeesExactly | al/common/classification.py:540-615 | The intersection sees a marking if and only if both users do and, where the marking has groups or subgroups, by one that both of them have. |
| MarkingsLaws.IntersectSeesShared | al/common/classification.py:540-615 | A marking without groups and subgroups that both users see is seen by their intersection. |
| MarkingsVisible.MaxIsSound | al/common/classification.py:700-740 | A user below the INVALID level who sees the maximum of two normalised markings sees both. |
| MarkingsVisible.MinIsSound | al/common/classification.py:742-786 | A user who sees either of two markings sees their minimum. |
| MarkingsVisible.IntersectIsSound | al/common/classification.py:540-579 | Whatever the intersection of two users sees, both users see. |
| MarkingsFold.MaxNamesFoldIs | al/common/classification.py:446-456 | Folding _max_groups over a list yields what is common to all non-empty members, or a clash, depending only on which sets occur. |
| MarkingsFold.JoinFoldIs | al/common/classification.py:700-740 | Folding the maximum yields what all markings say together, or an INVALID level. |
| MarkingsFold.MeetFoldIs | al/common/classification.py:742-786 | Folding the minimum yields what all markings leave. |
| MarkingsFold.MaxFoldOrder | al/core/dispatch.py:171-176 | Folding the maximum over any order and repetition of the same markings gives the same parts, or an INVALID level for every order. |
| MarkingsFold.MinFoldOrder | al/core/datastore.py:2578-2585 | Folding the minimum over any order and repetition gives the same parts. |
| MarkingsLoops.GetRequired | al/common/classification.py:298-316 | The loop collects exactly the required names that stand in the marking, by short or long name, sorted. |
| MarkingsLoops.GetGroups | al/common/classification.py:318-351 | The loops collect exactly the groups (through aliases and solitary names) and subgroups of the marking. |
| MarkingsLoops.NormalizedText | al/common/classification.py:369-436 | The seven steps, loops included, print the text of the specification. |
| MarkingsLoops.DemandedGroups | al/common/classification.py:393-404 | The loop over subgroups has the joint effect of their demands in turn. |
| MarkingsLoops.ShowGroups | al/common/classification.py:406-427 | The printing of groups, with the loop over aliases, prints the token of the specification. |
| MarkingsLoops.FoldMax | al/core/dispatch.py:171-176 | The loop over a submission's files is the fold of the maximum. |
| MarkingsLoops.FoldMin | al/core/datastore.py:2578-2585 | The loop over a file's remaining markings is the fold of the minimum. |
| ScanLock.UnregisterKeeps | al/core/middleman.py:85-106 | On exit the key is in the table with the lock acquired on entry. |
| ScanLock.ReleaseKeeps | al/core/middleman.py:85-106 | Releasing never fails: the lock is held by the leaving thread. |
| ScanLock.PerKeyMutex | al/core/middleman.py:85-106 | Under every interleaving at most one thread is inside for a key, leaving is always possible, and a key is in the table exactly while threads use it, with their number as count. |
| ScanLockObject.ScanLocks.Register | al/core/middleman.py:85-106 | The locked part of entering is the machine's step, keeps the table consistent, and counts one user more than there were. |
| ScanLockObject.ScanLocks.Acquire | al/core/middleman.py:85-106 | Having acquired the lock it was given, a thread is alone in the body for its key, and the table stays consistent. |
| ScanLockObject.ScanLocks.Unregister | al/core/middleman.py:85-106 | The locked part of leaving finds the lock entered with, keeps the table consistent, and leaves the key in the table exactly if another thread uses it. |
| ScanLockObject.ScanLocks.Release | al/core/middleman.py:85-106 | Releasing never fails, keeps the table consistent, and leaves the lock without owner. |
| ScanLockObject.ScanLocks.MutualExclusion | al/core/middleman.py:85-106 | In any state the methods can bring the table to, two threads in the body for one key are one. |
| DuplicatesTheorems.NeverStranded | al/core/middleman.py:1229-1236 | Under every interleaving, a key with parked duplicates and no thread busy on it has a scan in progress, unless the failure path abandoned it. |
| DuplicatesTheorems.StrandedExactly | al/core/middleman.py:1255-1263 | Under every interleaving, duplicates wait under a key that nobody scans or is busy on if and only if they wait under a key abandoned by the failure path that nobody is busy on. |
| DuplicatesTheorems.FailureStrands | al/core/middleman.py:1255-1263 | A run, for every key, after which all threads are idle, nothing is being scanned, and a notice is still parked. |
| DuplicatesTheorems.LeavesNothing | al/core/middleman.py:364-434 | When completed or timed_out is done with a key, nothing is parked under it, it is not tracked, and no notice is left in hand. |
| DuplicatesTheorems.EndsOnlyThrough | al/core/middleman.py:1255-1292 | A key leaves scanning only through the pop of completed, which goes on to drain its duplicates, of timed_out, which drops them, or of the failure path, which marks it abandoned. |
| DuplicatesTheorems.ParksUnderScan | al/core/middleman.py:1229-1236 | A notice is about to be parked only under a key that is being scanned or was abandoned. |
| DuplicatesTheorems.HeldIsFinalised | al/core/middleman.py:416-432 | A notice drained by completed leaves the thread's hands only by being finalised, once, in order, with that scan's key, sid and score. |
| DuplicatesTheorems.AcceptedOnce | al/core/middleman.py:523-551 | Every notice accepted or made is in exactly one place, is finalised at most once, and only by a completion of its own key. |
| DuplicatesTheorems.QuietIsDone | al/core/middleman.py:364-434 | When all threads are idle and nothing is being scanned, every notice was finalised, timed out or handed back, or waits under a key the failure path abandoned. |
| Ingester.Queues.Submit | al/core/middleman.py:1229-1236 | A notice is parked exactly if its key is being scanned, and else becomes the scan. |
| Ingester.Queues.Exhaust | al/core/middleman.py:416-432 | The loop hands out the key's whole queue in order and empties it. |
| Ingester.Queues.Completed | al/core/middleman.py:364-434 | The scan's own notice and every parked one are finalised in order with the same sid and score; other keys are untouched. For an unknown scan only a notice made from the message's metadata is finalised, if there is one. |
| Ingester.Queues.TimedOut | al/core/middleman.py:1273-1292 | The scan and its duplicates are taken out, each reported once, and the answer says whether there was anything. |
| Backup.HashKeysDiffer | al/common/backupmanager.py:441-489 | Two targets have the same entry in the follow hash only if they are the same, for bucket names without underscore. |
| Backup.EntriesTell | al/common/backupmanager.py:403-489 | Targets that the follow table gives for any records have the same entry in the hash if and only if they are the same. |
| BackupLaws.SelectSays | al/common/backupmanager.py:361-372 | The keys picked as results are those of the record that do not end in ".e", the keys picked as empty results those that do. |
| BackupLaws.SelectInOrder | al/common/backupmanager.py:361-372 | They are picked in the order of the record. |
| BackupLaws.CodeSays | al/common/backupmanager.py:375-379 | The code of an error key is what follows its last ".e"; without one there is no code. |
| BackupLaws.ErrorsSay | al/common/backupmanager.py:375-379 | The error keys picked are those whose code is unknown; the getter raises exactly if some error key has no code. |
| BackupLaws.SubmissionSays | al/common/backupmanager.py:403-415 | A submission leads exactly to its results and empty results, each under its bucket, its errors of unknown code, and the files named by its file list and by the first 64 characters of its results and errors; if an error key has no code, to its results and empty results only, and it counts as failed. |
| BackupLaws.OthersSay | al/common/backupmanager.py:403-418 | An alert leads to its submission, a record of bucket results to the supplementary and extracted files of its response, and no other record anywhere. |
| BackupProofs.QueueStep | al/common/backupmanager.py:441-516 | Every step keeps: kill messages come last, one per worker, and no key is queued behind workers that will not read it. |
| BackupProofs.SafeStays | al/common/backupmanager.py:441-489 | No step of any worker loses an item that was queued, in hand or processed. |
| BackupProofs.ItemStep | al/common/backupmanager.py:441-489 | Every step keeps: each streamed item, and each target of a saved record to be followed, is safe. |
| BackupTheorems.BackupComplete | al/common/backupmanager.py:240-319 | For every interleaving of any number of workers: when all have left, both queues are empty, every streamed key was processed, and the processed keys are closed under the follow table. |
| BackupLaws.SubmissionsComplete | al/common/backupmanager.py:240-319 | For every interleaving: when all workers have left, everything a saved and followed submission refers to has been processed under its own bucket, and all its error keys have codes. |
| BackupLaws.ResultsComplete | al/common/backupmanager.py:361-372 | In particular each of its results, under results if its key does not end in ".e" and under empty results if it does. |
| BackupTheorems.CountsEverything | al/common/backupmanager.py:152-206 | When the counting thread stops it has read every report, and successes plus errors plus the workers' last words are all reports there are. |
| BackupTheorems.CountReports | al/common/backupmanager.py:152-206 | The counting loop stops at exactly the last worker's last word, and its counts add up. |
| ExclusionWindow.OneUnexpiredHolder | al/common/remote_datatypes.py:114-168 | In every run at most one client inside has time left. |
| ExclusionWindow.ExitFreesOwnWindow | al/common/remote_datatypes.py:127-138 | The exit of an expired holder changes nothing; that of an unexpired one frees its own window and wakes those waiting. |
| ExclusionWindow.NoLostWakeup | al/common/remote_datatypes.py:127-168 | A blocked client is in the waiting list, about to be announced by a releasing client, or has a token to wake by. |
| ExclusionWindow.FreeWindowIsTaken | al/common/remote_datatypes.py:114-125 | If nobody inside has time left, the next attempt to enter succeeds. |
| ExclusionWindowObject.WindowKeys.Enter | al/common/remote_datatypes.py:114-125 | The script's updates of the keys are the machine's step. |
| ExclusionWindowObject.WindowKeys.Exit | al/common/remote_datatypes.py:127-138 | The script's updates of the keys are the machine's step. |
| ExclusionWindowObject.WindowKeys.Release | al/common/remote_datatypes.py:160-168 | Every name handed out gets exactly one token, whatever the shuffled order. |
| PriorityQueue.PaddedOrder | al/common/queue.py:205-211 | Below 10^20 the byte order of the padded digits is the numeric order. |
| PriorityQueue.RankIsOrder | al/common/queue.py:205-211 | Redis ranks members by priority descending, vip first, then arrival, and never merges two. |
| PriorityQueue.StripReturnsPayload | al/common/queue.py:247-256 | Dropping 21 characters gives the pushed payload back. |
| PriorityQueue.InsertedKeeps | al/common/queue.py:258-260 | Pushing keeps the queue in order and adds exactly one item. |
| PriorityQueue.ComesFirst | al/common/queue.py:198-211 | In a queue nothing comes out before an item of higher priority, at the same priority nothing before a vip item but another one, and of two alike the one pushed earlier comes first. |
| PriorityQueue.InsertedWhere | al/common/queue.py:205-211 | A pushed item goes behind every item that is at least as urgent and in front of every other. |
| PriorityQueue.PlacedIsInserted | al/common/queue.py:205-211 | Where redis puts the new member is where the order wants the item, and the member is new even for equal payloads. |
| PriorityQueueObject.Server.Push | al/common/queue.py:205-260 | The sequence is raised and the item enters the named queue in order. |
| PriorityQueueObject.Server.Take | al/common/queue.py:198-218 | Exactly the items of a rank range are removed and returned in order, negative ranks counting from the end. |
| PriorityQueueObject.Server.Pop | al/common/queue.py:247-256 | The first items of the order are removed and returned; other queues are untouched. |
| PriorityQueueObject.Server.Unpush | al/common/queue.py:262-271 | The last items of the order are removed and returned if and only if the number is not 0 or the queue is empty; none for a negative number, the whole queue for 0. |
| FlexAllocator.EveryRound | al/core/agents.py:409-455 | After every round the allocation is within capacity, failed services stay failed, and every other service has its proportional share of the busiest one's workers until that fails. |
| FlexAllocator.NeverOvercommits | al/core/agents.py:409-455 | Cores and RAM used never exceed what is available less the reserve. |
| FlexAllocator.FixedIsMaximal | al/core/agents.py:409-455 | When a round changes nothing, no service can take one more worker. |
| FlexAllocator.Allocate | al/core/agents.py:409-455 | The loop ends, within capacity, with nothing more to allocate. |
| Categories.ExpandCategories | al/core/servicing.py:288-324 | On every input on which the loop ends, the worklist that grows while it is walked yields what Walk finds. |
| Categories.HaltsExactly | al/core/servicing.py:288-324 | The loop ends on every list of names if and only if no categories, other than of one letter, form a ring in which each has another, or itself, as a member. |
| Categories.NeverEnds | al/core/servicing.py:288-324 | With a category of such a ring in the worklist, there is one in it after any number of rounds. |
| Categories.CategoryOfItself | al/core/servicing.py:391-395 | For a service that is named like its category the worklist is never empty. |
| Categories.RankedHalts | al/core/servicing.py:288-324 | Without a ring, each round expands a new category of one letter or shortens the rest of the walk. |
| Categories.ExpandsExactly | al/core/servicing.py:288-324 | Nothing is found but services the names stand for, and all of them are if and only if what the categories passed over stand for was found all the same. |
| Categories.ExpandsFully | al/core/servicing.py:288-324 | Exactly the services the names stand for are found, if no category of one letter is a letter of another's name. |
| Categories.NamesDecide | al/core/servicing.py:288-324 | All services are found, for every table of categories with the given names and every list on which the loop ends, if and only if no name of one letter is a letter of another name. |
| Categories.LetterClash | al/core/servicing.py:317-317 | A table and two names for which a service is missed. |
| Categories.StandsByMembers | al/core/servicing.py:288-324 | A service stands for itself, and a category, through chains of categories, for exactly what its members stand for. |
| Servicing.DetermineServices | al/core/servicing.py:250-282 | Selected and skipped services split the wanted ones by the file's type, and each table holds the selected services of its stage. |
| Servicing.EnterServices | al/core/servicing.py:250-282 | The same for the loop, in whatever order the set lists the services. |
| Servicing.OneStageEach | al/core/servicing.py:250-282 | A service is selected exactly if it stands in some stage's table, then in one only, never in the first or the last. |

## Left out

- Redis, Riak, the filestore, JSON, logging, counters, heartbeats and watchers of all components: foreign calls. Redis appears as atomic lists, hashes and sorted sets.
- DispatchModel.State: entries refer to their parent by srl, not by object reference; the classification of a final record is kept as the map from files to markings, and its fold is proved in MarkingsFold.
- The dispatcher's catch-all exception handlers, its storage writer (which drops a message after five Riak errors) and quota. The dispatcher's own replies are taken to arrive in the end.
- A root that arrives after its submission was finalised starts a fresh incarnation; FinalizedExactlyOnClosing counts incarnations.
- RangeTable: parsing of textual keys, and the float logarithm, for which the exact floor stands.
- Charset: unicode strings, escape_str's dispatch on types, and bidirectional wrapping.
- Markings: building the tables from a definition file, is_valid, the unenforced mode, and letter case outside ASCII. Definitions are arbitrary well-formed tables.
- MarkingsNormal.NormalizeTwice: gives only a sufficient condition; NormalizeTwiceExactly has the exact one.
- MarkingsOps.MaxTextIs: on definitions without require_group and limited_to_group, for which alone the maximum is the join.
- MarkingsOps.MinTextIs: on the same definitions.
- MarkingsOps.IntersectTextIs: on the same definitions.
- MarkingsOps.AccessibleIs: on the same definitions; MarkingsLaws.AccessSays has no such condition.
- MarkingsLaws.MaxSays: on the same definitions.
- MarkingsLaws.MinSays: on the same definitions.
- MarkingsLaws.IntersectSays: on the same definitions.
- MarkingsLaws.IntersectSeesExactly: on the same definitions.
- MarkingsLaws.IntersectSeesShared: on the same definitions.
- MarkingsLaws.RequiredGroupsSay: leaves definitions with limited_to_group to LimitedGroupsSay and, where both options meet, to NormalIs.
- MarkingsLaws.LimitedGroupsSay: leaves definitions with require_group to RequiredGroupsSay and NormalIs.
- MarkingsLaws.PrintedSays: speaks of at most one required name and one group, and of no subgroups; ParsePrint covers all lists.
- MarkingsFold.JoinFoldIs: stands for the code on the same definitions.
- MarkingsFold.MeetFoldIs: stands for the code on the same definitions.
- MarkingsVisible.MaxIsSound: on definitions without require_group and limited_to_group, and for markings that normalisation leaves alone; is_accessible skips auto-selection where the maximum applies it.
- MarkingsVisible.MinIsSound: on definitions without require_group and limited_to_group.
- MarkingsVisible.IntersectIsSound: on the same definitions, since a demanded group can come back after an intersection.
- MarkingsFold.MaxFoldOrder: on the same definitions, and with a marking for every file.
- MarkingsFold.MinFoldOrder: on the same definitions.
- DuplicatesTheorems.NeverStranded: leaves abandoned keys out; StrandedExactly covers them.
- DuplicatesTheorems.EndsOnlyThrough: speaks of one step; what is left behind is stated by StrandedExactly.
- Duplicates: the result cache, dropping and whitelisting, resubmission, and the list of Timeout objects; a scan times out at any moment.
- Backup: errors of the stream that delete the queues, queue thresholds, and failures of redis between adding to the hash and pushing.
- ExclusionWindow: a client that dies between its exit script and its tokens.
- PriorityQueue: sequences from 10^20 on, and Lua's doubles.
- FlexAllocator: the float ratio, for which exact arithmetic stands, and the building of profiles around the loop.
- Categories.ExpandCategories: says nothing of inputs on which the loop never returns.
- Servicing.DetermineServices: says nothing of selections or exclusions on which the loop never returns, and names the wanted services by what the loop finds.
