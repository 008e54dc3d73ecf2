# agentd's hand-over, and the algorithms around it: a verified model

agentd runs attempts on a host: it launches an executor for a claimed attempt, samples it,
hands its result over to the platform, and ends what is left of it. It can die at any point,
the platform can be away, lose an answer or refuse, and another agentd takes the attempt up
from a registry on disk. The first part of this project is that protocol:

- `Journal.dfy`: the history of one attempt outside agentd's memory (registry writes, requests,
  the platform's answers, pushes, looks at the process group, sweeps), and which event may follow
  which. A crash only ends a history early, so a lemma about every legal history is a lemma about
  every run with crashes anywhere.
- `JournalSafety.dfy`: what holds of every legal history. `Telling.dfy`: what its requests tell, by the
  events before them alone: how the end is named, what a check makes of the conclusion, and of what a result
  and a sample are put together.
- `Steps.dfy`, `HandOver.dfy`: the daemon itself, method by method as in the Go code, with the entry
  in memory, the registry behind it and the platform. Every method is proved to add only events the
  journal allows, so all of `JournalSafety` holds of `Daemon.Life`: an attempt's own run, then any
  number of takeovers, each cut short at any event. The ghost counter `trouble` counts what failed or
  was refused outside; a method that stops short is proved to have met some.
- `Runs.dfy`: runs built event by event. `BothTaken.dfy`: when one is submitted and salvaged as well, which
  shows what the platform has to promise. `ComputedTwice.dfy`: when one tells two conclusions.
- `Durable.dfy`: how the registry's file is written, with a crash of the host at any point.
- `HostLoop.dfy`: the loop over all attempts of a host: what a pass over its registry can do, what is
  ended and looked at before anything is sent, and before a claim.
- `LaunchGate.dfy`: agentd and its launcher, two processes and a pipe of one byte, all interleavings.
- `ProcessGroups.dfy`: the kernel's processes and groups, and ending a recorded group when its id may
  have gone to others.

The second part are the self-contained algorithms:

- `CanonicalJson.dfy`, `Normalize.dfy`: the parameters' canonical text and their normal form.
- `TakeChanges.dfy`: bringing a changed tree into a judged one. `Judging.dfy`: which files are protected, and
  what comes of trees without links.
- `Lines.dfy`: the log tail and the bounded line reader, and the queue of actions. `Reading.dfy`: which lines
  are handed on, by their places.
- `ShellWords.dfy`: the shell-like tokenizer and the manifest coverage it serves, over `Paths.dfy`, which cuts
  strings and paths apart. `Covering.dfy`: when a command is covered, by its words and the names in its paths.
- `PathRewrite.dfy`: naming known directories by their aliases, to a fixpoint.
- `WaveReconcile.dfy`: the wave-count gates of the drift scan.

`Common.dfy` holds what several of them use.

Abstract environment. Uploads, pushes, commits, requests, registry writes, the executor's end and the
check of what it changed are nondeterministic, each with every outcome the code distinguishes; an
upload that succeeds has a nonempty id. A commit is any string, the empty one for nothing to commit. A
platform that took a request may still answer nothing; only a computed one may be taken and read as
refused. A request reaches the platform, if it does, before agentd's next write or restart: one delayed on
its way and taken after those is excluded, and `NeverBoth` rests on that. Being fenced at the report of the
start is the lease given up. Of a claim the model keeps whether the registry's entry will name a repository
(`repo`: a takeover takes the workspace for a checkout by that alone) and whether there is a repository and a
base commit to make a checkout of (`based`); neither implies the other, and every combination is modelled. A
process that runs the executor has a checkout exactly when `based`; a claim that is to push a branch is not
launched without. Strings are sequences of
characters, bytes a type of their own where the code counts them.

Some predicates (`MayPut`, `Kept`, `Since`, `Settled`, `Ahead`, `Reporting`, `ReadyToEnd`, `Plain`, `InOrder`, `Upto`,
`Leads`, `Stands` and the like) are written as a quantifier over an `Asks...` term and opened by one lemma
(`MayPutMeans` and so on): that keeps each proof small and says no more than their bodies.

## What was found false, and exactly when it holds

- *Every computed request of an attempt is the same.* A claim that names a repository but has no base commit,
  and is to push no branch, runs without a checkout, so nothing is checked; a takeover takes its workspace
  for one, cannot read it, and fails what was told to be done: `DoneThenFailed`. Exactly then, and only for
  an executor that was done: `ComputedTheSameIff`; what else stays of the request: `ComputedTheSame`.
- *Submitted and salvaged exclude each other.* A run is both only if the platform refused as fenced a submit
  it took (`BothOnlyIfFenced`), so never under a platform that answers it again (`NeverBoth`). After a
  refusal of a submit that was taken a run can become both with no other such refusal exactly if that one
  was fenced: `BothExactlyIfFenced`, with the way on `FencedCanBeSalvaged` and a whole run `BothCanBeTaken`.
- *Every group is ended, or known gone, before anything is sent.* The first pass leaves an entry whose
  executor's end is known and whose group nobody looked at. A run leaves one (a launch stopped once its
  group was recorded), its computed request goes out so, and it does not block a claim:
  `PassedOverIsLeft`. In every pass each group is known first exactly when nothing is taken over before
  such an entry, and it begins with a look of its own: `KnownFirstIff`.
- *Protected paths of the judged tree stay.* A link in it to a protected directory lets one change:
  `ProtectedCanChange`; exactly when one stays: `ProtectedStaysIff`.
- *A judged path reads as the executor's file.* A link in the judged tree that read as that file is left,
  and then what it leads to may change: exactly `ReadsRightIff`, with `LinkReadsWrong`.
- *What work lacks is gone from the judged tree.* Not beneath a link of work through which a regular file
  is found: `StaleBeneathLink`; `Overlay` says exactly what is there.
- *The count of what is not taken is that of the two trees.* A protected link is compared after what it
  leads to was rewritten: `CountsLate`; exactly for which entries: `CountsEarlyIff`; what is counted: `CountIs`.
- *The later wave gates find nothing once the first do.* Exactly when neither count is negative:
  `LaterGatesFindNothing`.
- *Normal parameters survive storage.* Not for a typed slice with untrimmed strings, which no JSON gives:
  exactly `TypedSliceSurvives`.
- *A map comes to the same whatever order it is gone through.* Exactly when keys that collide once trimmed
  have the same trimmed value: `OrderMattersIff`.
- *A group told by its leader's start second is the run's.* Exactly when the process that has the id has the
  leader's boot and tick, which is not compared there: `StartSecondTells`, with a history in which it has
  not, `SecondsCollide`; a record with an identity does not have this: `EndRecordedGroup`.
- *A group with a process older than its leader's death is the run's.* Not when an older process moved into
  a new group of the id: `OlderMovesIn`; without that, and with a clock that is not set back: `DiedTells`.

## Model

| member | source | states |
|---|---|---|
| JournalSafety.LegalIsSound | api/internal/agentd/deliver.go:229-328 | in every run the entry's phase agrees with what the platform took, the numbers issued, the request out and the group |
| JournalSafety.CrashIsLegal | api/internal/agentd/local.go:155-157 | a crash at any event leaves a run the journal allows |
| JournalSafety.Evolves | api/internal/agentd/local.go:117-128 | between any two points of a run: a prepared result, the unaltered mark, the ended request and the last sample only change as journalled |
| JournalSafety.OneResult | api/internal/agentd/deliver.go:375-445 | every persist and every salvage of an attempt carries the same report, artifacts and commit |
| JournalSafety.OneCommit | api/internal/agentd/deliver.go:447-470 | every push is of the commit already journalled, the one handed in, and none is made after the first push |
| JournalSafety.UnalteredHandsInNothing | api/internal/agentd/deliver.go:276-285 | an implementation marked unchanged is never pushed, persisted, submitted or salvaged, before or after |
| JournalSafety.PersistAfterComputed | api/internal/agentd/deliver.go:261-291 | persist is sent only after a computed was taken |
| JournalSafety.SubmitAfterPersist | api/internal/agentd/deliver.go:295-301 | submit is sent only in phase submitting on disk, after the persist of that very result was taken |
| JournalSafety.BothOnlyIfFenced | api/internal/agentd/deliver.go:316-317 | submitted and salvaged both only if the platform refused as fenced a submit it had taken |
| BothTaken.BothExactlyIfFenced | api/internal/agentd/deliver.go:297-317 | once a submit that was taken is refused, a legal run on from there becomes both, with no other fenced submit, exactly if the refusal was fenced |
| BothTaken.FencedCanBeSalvaged | api/internal/agentd/deliver.go:316-317 | from any fenced submit a legal run goes on to a salvage taken, with no other fenced submit |
| JournalSafety.NeverBoth | api/internal/agentd/deliver.go:481-519 | with a platform that answers a taken submit again, no attempt is both |
| BothTaken.BothCanBeTaken | api/internal/agentd/deliver.go:297-317 | without that promise a legal run from the attempt's first event is both |
| JournalSafety.ForgottenOnlyGone | api/internal/agentd/deliver.go:532-589 | an entry leaves the registry only with its group known gone and its ended request answered for good |
| JournalSafety.ComputedTheSame | api/internal/agentd/deliver.go:241-275 | every computed request of an attempt is the same, but that prepare_failed may once become exit, and done become failed for a claim that names a repository with no base commit and no branch |
| ComputedTwice.ComputedTheSameIff | api/internal/agentd/deliver.go:340-364 | for every claim and first conclusion: all runs tell the same, exactly unless it is such a claim and done |
| ComputedTwice.DoneThenFailed | api/internal/agentd/deliver.go:743-750 | for each such claim a legal run in which the platform takes done and then, from a takeover, failed |
| JournalSafety.EndedTheSame | api/internal/agentd/deliver.go:549-557 | every ended request of an attempt is the same, but that prepare_failed may once become exit |
| Telling.EndSays | api/internal/agentd/deliver.go:532-565 | every ended request names how its entry was when the end was begun: its executor's own end, exit for none known, the lease or the restart, and exit in place of prepare_failed only after that was refused as by an older platform |
| Telling.CheckTells | api/internal/agentd/deliver.go:346-364 | what a check makes of every conclusion: not allowed fails all but none; an implementation without a change is marked and, done, concludes none |
| Telling.UnchangedNotDone | api/internal/agentd/deliver.go:357-361 | once an attempt is marked as having changed nothing, done is never computed |
| Telling.ResultIsMade | api/internal/agentd/deliver.go:375-445 | what is persisted or salvaged is what was uploaded and committed before; a part is missing only if it was not there, was refused for good or is not asked for |
| Telling.CheckpointIsMade | api/internal/agentd/checkpoint.go:28-84 | every checkpoint request was put together before and names nothing but a report, a log tail and a patch, each uploaded before that |
| JournalSafety.OneSampleANumber | api/internal/agentd/checkpoint.go:14-20 | two checkpoint requests of one number name the same artifacts and size flag, whichever writer made them |
| JournalSafety.NewSampleNewNumber | api/internal/agentd/checkpoint.go:29-66 | a new sample has a larger number than any sent, and while pending it is the last issued and unconfirmed |
| JournalSafety.HandedOverMeans | api/internal/agentd/deliver.go:756-764 | the registry says handed over only after a taken submit, a taken salvage, or a sample or report this very process put together whole, taken under the request that names its parts |
| JournalSafety.EmptiedOnlyHandedOver | api/internal/agentd/disk.go:132-146 | a workspace is emptied only after one of these, its group known gone |
| HandOver.Daemon.Put | api/internal/agentd/local.go:203-218 | a write may be made though it fails; done, it was made and the registry holds the entry |
| HandOver.Daemon.Retry | api/internal/agentd/run.go:731-754 | no request but this one goes out, at most five times; what its answer says of the platform |
| HandOver.Daemon.CheckChanges | api/internal/agentd/deliver.go:340-365 | the check is made once and journalled before anything is computed, or need not be made |
| HandOver.Daemon.Prepare | api/internal/agentd/deliver.go:375-445 | the result is prepared, phase and exit untouched; a refusal is the commit's |
| HandOver.Daemon.PushPrepared | api/internal/agentd/deliver.go:450-470 | done, the journalled commit is on its branch; never a refusal |
| HandOver.Daemon.ComputeStep | api/internal/agentd/deliver.go:241-275 | from exited: computed, or exit in place of prepare_failed, or why the hand-over stops |
| HandOver.Daemon.PersistStep | api/internal/agentd/deliver.go:276-294 | from computed: persisted, or nothing to hand in, or why it stops |
| HandOver.Daemon.SubmitStep | api/internal/agentd/deliver.go:297-301 | from submitting: submitted and handed over, or why it stops |
| HandOver.Daemon.Deliver | api/internal/agentd/deliver.go:229-328 | ends by a rank that falls each turn; submitted means taken; without trouble it submits unless nothing changed, and the attempt is over |
| HandOver.Daemon.Lose | api/internal/agentd/deliver.go:487-519 | the lost entry is journalled unless the registry fails; it is salvaged, ended or left for the next takeover; without trouble it is salvaged unless nothing changed |
| HandOver.Daemon.TakeCheckpoint | api/internal/agentd/checkpoint.go:28-84 | whole only if every part was read and taken in this call and so was the very request that names them; without trouble the platform took a sample, whole exactly when all its parts are there |
| HandOver.Daemon.ReportPrepare | api/internal/agentd/prepare.go:110-158 | once taken or given up it is done; whole only if report and log were read and taken by this process and the very request that names them was taken in this call |
| HandOver.Daemon.SendPending | api/internal/agentd/prepare.go:160-178 | what is pending is confirmed once taken, dropped once refused for good; a fence and a transient failure leave the entry as it was |
| HandOver.Daemon.End | api/internal/agentd/deliver.go:532-565 | the ended request is journalled first, naming the end it is given, or exit for none; over means answered for good and forgotten, or kept for its group or workspace |
| HandOver.Daemon.Settle | api/internal/agentd/deliver.go:567-589 | forgotten with its group gone, unswept or uncleared otherwise |
| HandOver.Daemon.SweepUp | api/internal/agentd/disk.go:137-146 | emptied only when handed over; kept for another try only when emptying failed |
| HandOver.Daemon.FirstPass | api/internal/agentd/deliver.go:672-718 | what was launching or running is looked at and journalled as restarted; a group that remains or is unknown is looked at again; an entry passed over stays untouched |
| HandOver.Daemon.TakeOver | api/internal/agentd/deliver.go:743-777 | the hand-over goes on from its journal and is over, or waits for the platform |
| HandOver.Daemon.Recover | api/internal/agentd/deliver.go:634-741 | a takeover keeps the journal's rules; done, the entry is gone or no longer running here; short of that there was trouble |
| HandOver.Daemon.FailBefore | api/internal/agentd/run.go:141-164 | an attempt that failed before its executor ends, or is lost, cancelled or left, by the journal's rules |
| HandOver.Daemon.Unlaunched | api/internal/agentd/run.go:540-548 | unless the registry fails, journalled as exited, cancelled and concluding none; then delivered |
| HandOver.Daemon.RunAttempt | api/internal/agentd/run.go:317-535 | an attempt's own run, of every claim, with a checkout or without, keeps the journal's rules and comes to its end unless there was trouble |
| HandOver.Daemon.Supervise | api/internal/agentd/run.go:558-628 | the group is ended and looked at whatever ended the run, and how it ended is journalled with that look unless the registry fails |
| HandOver.Daemon.Life | api/internal/agentd/deliver.go:623-741 | any life of an attempt, crashes at any event, is a legal history |
| Durable.Registry.WriteDurably | api/internal/agentd/local.go:245-273 | wherever it stops the file is the old or the new one; done, the new one is durable |
| Durable.Registry.Put | api/internal/agentd/local.go:203-243 | the registry reads as before or with this entry put, no other touched, after a crash too |
| HostLoop.Host.Recover | api/internal/agentd/deliver.go:634-741 | what it does is a pass of the relation over records and entries, to its end or to where it stopped; attempts run here are left alone |
| HostLoop.LooksFirst | api/internal/agentd/deliver.go:623-625 | in every pass, before any request, each record's run was ended and each group that may run looked at |
| HostLoop.NoneForOver | api/internal/agentd/deliver.go:672-740 | no request goes out for an attempt that only waits for its group or its workspace |
| HostLoop.OnlyEndsIff | api/internal/agentd/deliver.go:743-777 | with its result prepared, a takeover only ends the attempt exactly when the journal lets nothing be sent for it |
| HostLoop.Host.Blocked | api/internal/agentd/deliver.go:595-612 | blocked exactly while a group remains or is unknown, or an exam or bench record is left |
| HostLoop.Host.Turn | api/cmd/agentd/main.go:171-228 | a pass, then perhaps a claim: only with nothing that blocks, and every other group known gone unless passed over before |
| HostLoop.Host.Serve | api/cmd/agentd/main.go:132-228 | from a restart to the first claim no request goes out before every record's run was ended and every group that may run looked at |
| HostLoop.KnownFirstIff | api/internal/agentd/deliver.go:672-740 | in every pass each group is known gone or looked at before any request, exactly when no takeover comes before a look at an entry passed over |
| HostLoop.PassedOverIsLeft | api/internal/agentd/run.go:540-548 | a legal run leaves such an entry; its computed request goes out after a restart though nobody looked at its group, and it does not block |
| LaunchGate.RunsOnlyRecorded | api/internal/agentd/launch.go:275-317 | an executor runs only with its group recorded and its start reported, in every interleaving |
| LaunchGate.RunsOnlyReleased | api/internal/agentd/launch.go:297-311 | record, report and release come first, in that order |
| LaunchGate.NeverRuns | api/internal/agentd/launch.go:38-48 | a launch that failed, or whose agentd died, before the byte never runs its executor |
| LaunchGate.FailedLeavesNothing | api/internal/agentd/launch.go:301-315 | a failed launch leaves neither launcher nor executor |
| LaunchGate.OrphanEnds | api/internal/agentd/launch.go:43-48 | a launcher whose agentd died ends its read, and refuses without the byte |
| LaunchGate.Undisturbed | api/internal/agentd/launch.go:279-317 | an undisturbed launch does run its executor |
| ProcessGroups.RecordStaysMeant | api/internal/agentd/hostleft.go:84-98 | a record means its leader and its group ever after, whatever ids were given out since |
| ProcessGroups.ClearGroup | api/internal/agentd/launch.go:171-216 | when the group is signalled and when it is said to be cleared, exactly |
| ProcessGroups.EndRecordedGroup | api/internal/agentd/hostleft.go:84-115 | signals the recorded run's group alone and says cleared only of a run none of whose processes runs |
| ProcessGroups.SecondsCollide | api/internal/agentd/launch.go:346-355 | a history in which it is another's: the id came again in the same second |
| ProcessGroups.DiedTells | api/internal/agentd/launch.go:171-178 | a process that started in a second before the leader's death shows the group to be the run's, if the clock goes forward and nothing moves into another group of the id |
| ProcessGroups.OlderMovesIn | api/internal/agentd/launch.go:171-178 | a history in which an older process did move in, and the group is another's |
| CanonicalJson.SortedIsOne | api/internal/actions/hash.go:35-39 | in whatever order a map gives its keys, sorted they are the same |
| CanonicalJson.SmallerFirst | api/internal/actions/hash.go:35-58 | of any two keys of an object the one that is less, a beginning or of the smaller character where they part, is written first with its value |
| CanonicalJson.EscapedIsShortest | api/internal/actions/hash.go:48-52 | each character of a string is written as the shortest text that reads as it and stands safely in HTML and JavaScript, hexadecimal digits in lower case |
| CanonicalJson.CanonicalText | api/internal/actions/hash.go:29-102 | the loops write the canonical text, whose keys ascend and which reads back |
| CanonicalJson.CanonicalReadsBack | api/internal/actions/hash.go:29-102 | a reader recovers the value from its text and stops where it ends |
| CanonicalJson.SameTextSameValue | api/internal/actions/hash.go:14-16 | equal texts exactly for equal parameters |
| Normalize.NormalizeParams | api/internal/actions/normalize.go:24-53 | where colliding keys agree: each value as it is spelled, stripped and kept by its kind, absent ones dropped but for an optional boolean, and nothing else; or the first parameter that cannot be read |
| Normalize.BooleanFromString | api/internal/actions/normalize.go:151-164 | a boolean given as any string: true for the words true and 1, false for false and 0, whatever space is around and whatever case, an error otherwise |
| Normalize.TrimMeans | api/internal/actions/normalize.go:166-216 | trimming takes the white space around a text away, all of it and nothing else |
| Normalize.NormalizeTwice | api/internal/actions/normalize.go:21-53 | normalizing what was normalized changes nothing, passed through or not |
| Normalize.HashSurvivesStorage | api/internal/actions/hash.go:14-16 | stored, read and normalized again, decoded parameters have the same normal form and text |
| Normalize.TypedSliceSurvives | api/internal/actions/normalize.go:198-216 | a typed slice survives exactly when its strings are trimmed |
| Normalize.OrderDoesNotMatter | api/internal/actions/normalize.go:166-196 | where colliding keys agree every order of a map comes to the trimmed map |
| Normalize.OrderMattersIff | api/internal/actions/normalize.go:179-192 | every order of a map comes to the same exactly when keys that collide once trimmed have the same trimmed value |
| TakeChanges.Judged.TakeChanges | api/internal/agentd/benchrun.go:415-507 | no protected path is touched that no link leads to, even when it fails; done, the tree and the count are those of the two walks; it fails only where a step failed or something is too large |
| Judging.MatchStar | api/internal/agentd/benchrun.go:402-406 | a pattern with a star names what begins and ends as it does, with anything between |
| Judging.NamedMeans | api/internal/agentd/benchrun.go:389-408 | a file is protected by its name exactly when that fits a pattern of the table |
| Judging.GoFilesMean | api/internal/agentd/benchrun.go:389-408 | a file of Go beneath no protected directory is protected exactly when it is a test or named after a configuration |
| Judging.DotlessIsTaken | api/internal/agentd/benchrun.go:394-408 | a file without a dot in its name is protected exactly beneath a protected directory, not by being called as one |
| Judging.TestsStay | api/internal/agentd/benchrun.go:415-450 | a test file, and all beneath tests, is left by every take, failing or not, unless a link leads to a directory above it |
| Judging.ProtectedStays | api/internal/agentd/benchrun.go:415-450 | what is protected is left where no link of the judged tree leads to a directory above it |
| Judging.OverlayPlain | api/internal/agentd/benchrun.go:415-503 | without links: what is protected is the judged tree's, all else is work's regular files and nothing more |
| Judging.CountPlain | api/internal/agentd/benchrun.go:444-450 | without links in the judged tree the count is of what is no regular file and of the protected files it has not so |
| TakeChanges.ProtectedStaysIff | api/internal/agentd/benchrun.go:415-418 | a protected path stays exactly when the last that a link brings to it has its body, or nothing is brought |
| TakeChanges.ProtectedCanChange | api/internal/agentd/benchrun.go:444-472 | through a link to a protected directory a protected file does change |
| TakeChanges.Overlay | api/internal/agentd/benchrun.go:415-418 | what is there in the end: exactly what was there or was brought and work has, as it was unless something was brought |
| TakeChanges.StaleBeneathLink | api/internal/agentd/benchrun.go:474-503 | a path work has no file at is left beneath a link of work through which one is found |
| TakeChanges.ReadsRightIff | api/internal/agentd/benchrun.go:444-472 | when a taken path reads as work's file in the end, exactly, beneath links, at links and elsewhere |
| TakeChanges.NoLinksReadsRight | api/internal/agentd/benchrun.go:444-472 | a judged tree without links reads as work's files |
| TakeChanges.LinkReadsWrong | api/internal/agentd/benchrun.go:458-460 | a link does read wrong, at any unprotected path the walk comes to before another |
| TakeChanges.CountIs | api/internal/agentd/benchrun.go:444-450 | the count is of the entries that are no regular file and of the protected files that differ, by then, from what they are compared with |
| TakeChanges.CountsEarlyIff | api/internal/agentd/benchrun.go:444-450 | an entry is counted as the trees were to begin with, but exactly for one compared after a change that decides |
| TakeChanges.CountsLate | api/internal/agentd/benchrun.go:444-450 | a protected link does count though it read as work's file to begin with, at any the walk comes to after an unprotected path |
| TakeChanges.CountIsDropped | api/internal/agentd/benchrun.go:444-450 | with none of these the count is that of the two trees |
| Lines.PiecesAreLines | api/internal/agentd/executors.go:556-588 | the cut of a text into lines loses nothing |
| Lines.OneCut | api/internal/agentd/executors.go:556-588 | a text has one cut into lines |
| Lines.EachLineOr | api/internal/agentd/executors.go:556-588 | however a buffer cuts the text, the calls are those of the whole text's lines |
| Reading.ShortMeans | api/internal/agentd/executors.go:556-588 | these calls are each line of at most max bytes once, in order and without its end, and one for each longer line |
| Lines.ActionTail.Read | api/internal/agentd/actions.go:191-237 | however reads cut the log, the lines handed on are those of all that was read, the kept part never over maxBody |
| Reading.WholeMeans | api/internal/agentd/actions.go:208-237 | these lines are the ended ones of at most maxBody bytes, each once, in order and without its newline |
| Lines.ActionTail.AddClean | api/internal/agentd/actions.go:264-276 | the queue is the newest maxPending since the last take |
| Lines.ActionTail.TakeActions | api/internal/agentd/actions.go:163-189 | the longest run of the newest, at most max, whose targets fit, and an empty queue |
| Reading.LongestFitMeans | api/internal/agentd/actions.go:163-189 | what is taken fits, and the next older action would be too many or too large |
| ShellWords.CommandTokens | api/internal/actions/covered.go:121-187 | the loop's tokens are those of the scan |
| ShellWords.QuotedComesBack | api/internal/actions/covered.go:121-187 | words in single or double quotes, escaped or bare, and operators come apart again, whatever the words and the space between |
| ShellWords.TokensTell | api/internal/actions/covered.go:121-187 | without NUL in a word the tokens say which items they were |
| ShellWords.CoveredBy | api/internal/actions/covered.go:9-101 | a hit exactly when some applied file is covered, and then the repo and the path that a file of the first covered segment is placed in, beneath a prefix of that repo name by name |
| Paths.UnderMeans | api/internal/actions/covered.go:87-89 | a path lies beneath a prefix exactly when its names begin with the prefix's, whatever slashes are around that |
| Covering.HitIsCovered | api/internal/actions/covered.go:83-92 | a hit's manifest, split at its slashes, begins with the names of a prefix of the repo returned |
| Covering.NamedIsCovered | api/internal/actions/covered.go:68-92 | a path that names a repo is covered exactly when the names behind that begin with those of a prefix of the repo, or of any where its name is empty |
| Covering.BareIsCovered | api/internal/actions/covered.go:65-92 | a path that names none is covered exactly when its names begin with those of a prefix of the first repo, or of any where that has no name |
| Covering.ArgumentsMean | api/internal/actions/covered.go:35-53 | of any arguments: server-side and forced exactly when switched on somewhere, and the files are all those named, in order |
| Covering.SubcommandMeans | api/internal/actions/covered.go:103-119 | the subcommand is the first word that is no flag and no flag's value |
| Covering.ApplyIsCovered | api/internal/actions/covered.go:28-92 | a command that applies one file is covered exactly when that file is |
| Covering.PipeIsCovered | api/internal/actions/covered.go:57-60 | one that applies what a kustomize build is piped to is covered exactly when what was built is |
| PathRewrite.NothingFound | api/internal/agentd/executors.go:719-724 | no match exactly when no known directory stands as a whole path |
| PathRewrite.WholeMeans | api/internal/agentd/executors.go:714-724 | a directory is a whole path exactly between characters of the two lists, or the text's ends |
| PathRewrite.NotInside | api/internal/agentd/executors.go:714-719 | never where a name's character or a slash is before it or a name's character behind it |
| PathRewrite.LeftmostFound | api/internal/agentd/executors.go:724 | what is found is the leftmost whole directory, and the longest there |
| PathRewrite.LongestWins | api/internal/agentd/executors.go:713-714 | at one place the longest directory is replaced |
| PathRewrite.FewerSlashes | api/internal/agentd/executors.go:736-739 | each replacement takes a slash away |
| PathRewrite.NamedMeans | api/internal/agentd/executors.go:690-700 | a directory has an alias exactly when it is named and not the root, and it is that of its first name |
| PathRewrite.Rewriter.constructor | api/internal/agentd/executors.go:687-712 | each directory named but the root has its first alias, longest first |
| PathRewrite.Rewriter.Rewrite | api/internal/agentd/executors.go:740-760 | within one pass more than the text is long nothing is left to replace, by replacing whole paths only |
| WaveReconcile.CheckReconcile | agent/drift/scan_layer3.py:132-235 | each finding, with what it names, exactly when its gate fires |
| WaveReconcile.ProjectedMeans | agent/drift/scan_layer3.py:80-92 | what each wave is projected as, by its index, the two counts and the status alone |
| WaveReconcile.OneIsNext | agent/drift/scan_layer3.py:80-92 | exactly one wave is next where the stream is in progress and has more, the one behind the done and the ready; else none |
| WaveReconcile.HeadlineNamesNext | agent/drift/scan_layer3.py:222-233 | the headline gate fires exactly where a wave is next and the headline has not its code, the ready count not being negative |
| WaveReconcile.LaterQuietIff | agent/drift/scan_layer3.py:181-220 | the queue and appendix gates find nothing exactly when the projection agrees with the spine |
| WaveReconcile.CountsAreTheSpines | agent/drift/scan_layer3.py:181-220 | the projected counts are the spine's and at most one wave is next, in every order and open status |
| WaveReconcile.LaterGatesFindNothing | agent/drift/scan_layer3.py:152-220 | the later gates find nothing then exactly when neither count is negative |

## Left out

- The lease keeper's timing, the heartbeats and their actions, and `next`, the time before which an attempt is not taken over again: a takeover may or may not go on, at any time.
- A plan's second launch with a missing block, drift checks, exam and bench bookkeeping: easier members around the same journal.
- The start request: its refusal as fenced is the lease given up, any other ends the attempt; the usage sent with computed is not kept.
- HandOver.Daemon.TakeOver: the branch for a phase string no agentd writes is not modelled; phases are a closed type.
- HandOver.Daemon.Prepare: what the executor left is read anew by each call, as any log tail and any report there or not; the texts and their masking are not modelled.
- HandOver.Daemon.Supervise: samples go one after the other before the end; a sample finishing beside the end of the group is the same events in that order.
- HandOver.Daemon.SweepUp: removing a directory tree is one event that empties it, fails, or finds no workspace.
- HostLoop.Host.Turn: pruning, the free slots and the free disk decide whether it asks at all.
- HostLoop.KnownFirstIff: requests are those of the hand-overs; heartbeats of a lease kept during one come no sooner than the beat's interval and are not modelled.
- HostLoop.Host.Recover: a takeover there sends and looks any number of times at its own attempt; what it sends is the subject of `HandOver`. Ending a record's run is one act that removes the record or leaves it.
- Durable.Registry.Put: the lock and the JSON are a code that reads back what it wrote; deleting an entry is the same write.
- ProcessGroups.ClearGroup: one look at a call is consistent, a leader stays in its group, and no process id is given out twice in a tick.
- ProcessGroups.DiedTells: the second the leader was seen dead in is one it was not reaped before; agentd takes the time just after the wait, so a second that turns in between is not covered.
- CanonicalJson.CanonicalReadsBack: numbers are integers; other floats, json.Number and a float64 of exactly two to the 63rd, whose conversion Go leaves open, are not modelled; strings are valid UTF-8, and surrogate escapes, which are never written, are not read.
- Normalize.HashSurvivesStorage: the digest is not modelled, its text is; parameter names are distinct, as in a catalog.
- TakeChanges.Judged.TakeChanges: directories and file modes are not modelled, nor links of the judged tree that are, lie beneath or lie above what another of its links leads to, or that lead out of it; a write or a removal may fail at any point.
- Lines.ActionTail.Read: opening and seeking the file, and the parsers of a line, are not modelled; nor is that a line shares the buffer it was read into.
- ShellWords.CommandTokens: the policy file and the locale are not modelled.
- PathRewrite.Rewriter.Rewrite: cleaning a path and resolving its links are the caller's; the regular expression is its meaning, leftmost match and first alternative.
- WaveReconcile.CheckReconcile: reading the catalog and the context; findings carry what they name, not their text.
- The Landlock, bubblewrap and codex walls, HTTP routing, prompts, descriptions and the console: plumbing with no hard property.
